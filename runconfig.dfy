/**
 * How `exp run` settles what to submit before it contacts the cluster: the flags
 * are layered with the `defaults` and the named profile of the user's config file
 * and with the per-run file, then checked (required fields, absolute remote paths,
 * the artifact remote and destination given together, each artifact source), and
 * the artifact patterns are combined into the form the experiment record stores.
 */
module RunConfig {
  import opened Wrappers
  import opened Text
  import Paths
  import opened Errors
  import opened Patterns
  import Slurm

  /** `defaultPollInterval`, in seconds. */
  const DefaultPollSeconds: int := 30

  /** A profile of the config file (`defaults` or a named one). An empty string is an unset field. */
  datatype Profile = Profile(
    remote: string, logDir: string, script: string, buildScript: string,
    artifactSources: seq<Source>, artifactPatterns: seq<string>, artifactRemote: string,
    artifactDest: string, artifactPattern: string, sinceStart: Option<bool>, pollInterval: string)

  /** The config file: its `defaults`, its named profiles, and where it was read from. */
  datatype Config = Config(defaults: Profile, profiles: map<string, Profile>, path: string)

  /** A per-run file (`--config-file`). */
  datatype RunFile = RunFile(
    profile: string, name: string, remote: string, logDir: string, script: string, buildScript: string,
    scriptLocal: string, artifactRemote: string, artifactDest: string, artifactSources: seq<Source>,
    artifactPatterns: seq<string>, artifactPattern: string, sinceStart: Option<bool>, pollInterval: string,
    args: seq<string>)

  /**
   * The flags of `exp run`: the string flags (empty when not given), the repeated
   * `--artifact-pattern`, `--artifact-since-start` and `--poll-interval` (None when
   * not given; the interval in seconds) and the script arguments after the flags.
   */
  datatype RunFlags = RunFlags(
    remote: string, name: string, logDir: string, script: string, buildScript: string, scriptLocal: string,
    artifactRemote: string, artifactDest: string, patterns: seq<string>, configPath: string, profile: string,
    sinceStart: Option<bool>, poll: Option<int>, args: seq<string>)

  /** The values `cmdRun` accumulates while it applies the layers. */
  datatype Settings = Settings(
    remote: string, name: string, logDir: string, script: string, buildScript: string, scriptLocal: string,
    artifactRemote: string, artifactDest: string, configPatterns: seq<string>, artifactSources: seq<Source>,
    sinceStart: bool, poll: int, profile: string)

  /** A field (a string or a list) that is still empty takes the layer's value. */
  function Fill<T>(current: seq<T>, layer: seq<T>): (r: seq<T>)
    ensures current != [] ==> r == current
    ensures current == [] ==> r == layer
  {
    if current == [] then layer else current
  }

  /** The values before any layer: the flags, with since-start on and the default interval when not given. */
  function Initial(f: RunFlags): Settings {
    Settings(f.remote, f.name, f.logDir, f.script, f.buildScript, f.scriptLocal, f.artifactRemote, f.artifactDest,
             [], [], f.sinceStart.GetOr(true), f.poll.GetOr(DefaultPollSeconds), f.profile)
  }

  /** The six string fields every layer fills when they are still empty. */
  function Filled(s: Settings, remote: string, logDir: string, script: string, buildScript: string,
                  artifactRemote: string, artifactDest: string): Settings
  {
    s.(remote := Fill(s.remote, remote), logDir := Fill(s.logDir, logDir), script := Fill(s.script, script),
       buildScript := Fill(s.buildScript, buildScript), artifactRemote := Fill(s.artifactRemote, artifactRemote),
       artifactDest := Fill(s.artifactDest, artifactDest))
  }

  /** The pattern list and the source list are taken from a layer only while still empty, and only when it has some. */
  function WithLists(s: Settings, pats: seq<string>, sources: seq<Source>): Settings {
    s.(configPatterns := if |s.configPatterns| == 0 && |pats| > 0 then pats else s.configPatterns,
       artifactSources := if |s.artifactSources| == 0 && |sources| > 0 then sources else s.artifactSources)
  }

  /** A layer's since-start setting overwrites the current one unless the flag was given. */
  function WithSince(s: Settings, f: RunFlags, given: Option<bool>): Settings {
    if f.sinceStart.None? && given.Some? then s.(sinceStart := given.value) else s
  }

  /**
   * A layer's poll interval overwrites the current one unless the flag was given;
   * `durations` is `time.ParseDuration`, in seconds, and an interval it rejects is
   * an error naming where it came from.
   */
  function WithPoll(s: Settings, f: RunFlags, durations: string -> Option<int>, interval: string, source: string)
    : Result<Settings, Err>
  {
    if f.poll.None? && interval != [] then
      match durations(interval)
      case None => Failure(InvalidPollInterval(interval, source))
      case Some(d) => Success(s.(poll := d))
    else Success(s)
  }

  /**
   * `applyProfile`: empty string fields and the still-empty pattern and source
   * lists are filled from the profile (its patterns cleaned), and its since-start
   * setting and interval overwrite the current ones unless the flags gave them. It
   * fails only on an interval `durations` rejects, and never touches the name or
   * the profile name.
   */
  function ProfileStep(s: Settings, f: RunFlags, durations: string -> Option<int>, source: string, p: Profile)
    : (r: Result<Settings, Err>)
    ensures r.Failure? <==> f.poll.None? && p.pollInterval != [] && durations(p.pollInterval).None?
    ensures r.Failure? ==> r.error == InvalidPollInterval(p.pollInterval, "profile " + source)
    ensures r.Success? ==> r.value.name == s.name && r.value.profile == s.profile && r.value.scriptLocal == s.scriptLocal
    ensures r.Success? ==>
      && r.value.remote == Fill(s.remote, p.remote) && r.value.logDir == Fill(s.logDir, p.logDir)
      && r.value.script == Fill(s.script, p.script) && r.value.buildScript == Fill(s.buildScript, p.buildScript)
      && r.value.artifactRemote == Fill(s.artifactRemote, p.artifactRemote)
      && r.value.artifactDest == Fill(s.artifactDest, p.artifactDest)
      && r.value.configPatterns == Fill(s.configPatterns, Cleaned(p.artifactPatterns + [p.artifactPattern]))
      && r.value.artifactSources == Fill(s.artifactSources, p.artifactSources)
      && r.value.sinceStart == (if f.sinceStart.None? && p.sinceStart.Some? then p.sinceStart.value else s.sinceStart)
      && (f.poll.Some? || p.pollInterval == [] ==> r.value.poll == s.poll)
      && (f.poll.None? && p.pollInterval != [] ==> r.value.poll == durations(p.pollInterval).value)
  {
    var s1 := Filled(s, p.remote, p.logDir, p.script, p.buildScript, p.artifactRemote, p.artifactDest);
    var s2 := WithLists(s1, Cleaned(p.artifactPatterns + [p.artifactPattern]), p.artifactSources);
    WithPoll(WithSince(s2, f, p.sinceStart), f, durations, p.pollInterval, "profile " + source)
  }

  /**
   * `applyRunFile`: as `applyProfile`, and also the uploaded script and, last, the
   * name; an interval error names the run file.
   */
  function RunFileStep(s: Settings, f: RunFlags, durations: string -> Option<int>, source: string, rf: RunFile)
    : (r: Result<Settings, Err>)
    ensures r.Failure? <==> f.poll.None? && rf.pollInterval != [] && durations(rf.pollInterval).None?
    ensures r.Failure? ==> r.error == InvalidPollInterval(rf.pollInterval, source)
    ensures r.Success? ==> r.value.name == Fill(s.name, rf.name) && r.value.profile == s.profile
    ensures r.Success? ==>
      && r.value.remote == Fill(s.remote, rf.remote) && r.value.logDir == Fill(s.logDir, rf.logDir)
      && r.value.script == Fill(s.script, rf.script) && r.value.buildScript == Fill(s.buildScript, rf.buildScript)
      && r.value.scriptLocal == Fill(s.scriptLocal, rf.scriptLocal)
      && r.value.artifactRemote == Fill(s.artifactRemote, rf.artifactRemote)
      && r.value.artifactDest == Fill(s.artifactDest, rf.artifactDest)
      && r.value.configPatterns == Fill(s.configPatterns, Cleaned(rf.artifactPatterns + [rf.artifactPattern]))
      && r.value.artifactSources == Fill(s.artifactSources, rf.artifactSources)
      && r.value.sinceStart == (if f.sinceStart.None? && rf.sinceStart.Some? then rf.sinceStart.value else s.sinceStart)
      && (f.poll.Some? || rf.pollInterval == [] ==> r.value.poll == s.poll)
      && (f.poll.None? && rf.pollInterval != [] ==> r.value.poll == durations(rf.pollInterval).value)
  {
    var s1 := Filled(s, rf.remote, rf.logDir, rf.script, rf.buildScript, rf.artifactRemote, rf.artifactDest)
      .(scriptLocal := Fill(s.scriptLocal, rf.scriptLocal));
    var s2 := WithLists(s1, Cleaned(rf.artifactPatterns + [rf.artifactPattern]), rf.artifactSources);
    match WithPoll(WithSince(s2, f, rf.sinceStart), f, durations, rf.pollInterval, source)
    case Failure(e) => Failure(e)
    case Success(s3) => Success(s3.(name := Fill(s3.name, rf.name)))
  }

  /** Before the config file is read, the run file supplies the profile name and the name when the flags do not. */
  function Early(f: RunFlags, runFile: Option<RunFile>): Settings {
    var s := Initial(f);
    match runFile
    case None => s
    case Some(rf) => s.(profile := Fill(s.profile, rf.profile), name := Fill(s.name, rf.name))
  }

  /** The run file's layer, when there is one. */
  function RunFileLayer(s: Settings, f: RunFlags, durations: string -> Option<int>, runFile: Option<RunFile>)
    : Result<Settings, Err>
  {
    match runFile
    case None => Success(s)
    case Some(rf) => RunFileStep(s, f, durations, f.configPath, rf)
  }

  /**
   * The layering of `cmdRun`: the flags, then `defaults`, then the named profile,
   * then the run file. A profile named without a config file, or missing from it,
   * is an error.
   */
  function Layered(f: RunFlags, durations: string -> Option<int>, cfg: Option<Config>, runFile: Option<RunFile>)
    : (r: Result<Settings, Err>)
    ensures var named := Early(f, runFile).profile;
      && (cfg.None? && named != [] ==> r == Failure(ProfileWithoutConfig(named)))
      && (cfg.Some? && named != [] && named !in cfg.value.profiles
          && ProfileStep(Early(f, runFile), f, durations, "defaults", cfg.value.defaults).Success? ==>
            r == Failure(ProfileNotFound(named, cfg.value.path)))
    ensures r.Failure? && r.error.InvalidPollInterval? ==> f.poll.None?
    ensures r.Success? ==> r.value.profile == Early(f, runFile).profile
  {
    var s0 := Early(f, runFile);
    match cfg
    case None =>
      if s0.profile != [] then Failure(ProfileWithoutConfig(s0.profile))
      else RunFileLayer(s0, f, durations, runFile)
    case Some(c) =>
      match ConfigLayer(s0, f, durations, c)
      case Failure(e) => Failure(e)
      case Success(s2) => RunFileLayer(s2, f, durations, runFile)
  }

  /** The config file's layers: `defaults`, then the profile the settings name, if any. */
  function ConfigLayer(s0: Settings, f: RunFlags, durations: string -> Option<int>, c: Config): Result<Settings, Err> {
    match ProfileStep(s0, f, durations, "defaults", c.defaults)
    case Failure(e) => Failure(e)
    case Success(s1) =>
      if s1.profile == [] then Success(s1)
      else if s1.profile !in c.profiles then Failure(ProfileNotFound(s1.profile, c.path))
      else ProfileStep(s1, f, durations, s1.profile, c.profiles[s1.profile])
  }

  /** The first non-empty value (string or list), or the empty one. */
  function FirstFilled<T>(xs: seq<seq<T>>): seq<T> {
    if xs == [] then [] else if xs[0] != [] then xs[0] else FirstFilled(xs[1..])
  }

  /** The last value that is set, or `otherwise`. */
  function LastGiven<T>(xs: seq<Option<T>>, otherwise: T): T {
    if xs == [] then otherwise
    else if xs[|xs| - 1].Some? then xs[|xs| - 1].value
    else LastGiven(xs[..|xs| - 1], otherwise)
  }

  /**
   * The precedence the layering gives, with a config file, a named profile and a
   * run file: a string field takes the first non-empty value among the flag,
   * `defaults`, the profile and the run file, so `defaults` beats the profile and
   * both beat the run file; since-start takes the flag when given and otherwise the
   * LAST setting among `defaults`, the profile and the run file; the interval is
   * the flag's when given and otherwise the LAST one set among the three layers (or
   * the default); the pattern list and the source list are those of the first layer
   * that has any.
   */
  lemma Precedence(f: RunFlags, durations: string -> Option<int>, c: Config, rf: RunFile)
    requires Fill(f.profile, rf.profile) != [] && Fill(f.profile, rf.profile) in c.profiles
    requires Layered(f, durations, Some(c), Some(rf)).Success?
    ensures var s := Layered(f, durations, Some(c), Some(rf)).value;
      var p := c.profiles[Fill(f.profile, rf.profile)];
      && s.remote == FirstFilled([f.remote, c.defaults.remote, p.remote, rf.remote])
      && s.logDir == FirstFilled([f.logDir, c.defaults.logDir, p.logDir, rf.logDir])
      && s.script == FirstFilled([f.script, c.defaults.script, p.script, rf.script])
      && s.buildScript == FirstFilled([f.buildScript, c.defaults.buildScript, p.buildScript, rf.buildScript])
      && s.artifactRemote == FirstFilled([f.artifactRemote, c.defaults.artifactRemote, p.artifactRemote, rf.artifactRemote])
      && s.artifactDest == FirstFilled([f.artifactDest, c.defaults.artifactDest, p.artifactDest, rf.artifactDest])
      && s.name == Fill(f.name, rf.name)
      && s.sinceStart == (if f.sinceStart.Some? then f.sinceStart.value
                          else LastGiven([c.defaults.sinceStart, p.sinceStart, rf.sinceStart], true))
      && (f.poll.Some? ==> s.poll == f.poll.value)
      && (f.poll.None? ==> s.poll == LastGiven([Interval(durations, c.defaults.pollInterval),
                                                Interval(durations, p.pollInterval),
                                                Interval(durations, rf.pollInterval)], DefaultPollSeconds))
      && s.configPatterns == FirstFilled([Cleaned(c.defaults.artifactPatterns + [c.defaults.artifactPattern]),
                                          Cleaned(p.artifactPatterns + [p.artifactPattern]),
                                          Cleaned(rf.artifactPatterns + [rf.artifactPattern])])
      && s.artifactSources == FirstFilled([c.defaults.artifactSources, p.artifactSources, rf.artifactSources])
  {
    var name := Fill(f.profile, rf.profile);
    var p := c.profiles[name];
    var s0 := Early(f, Some(rf));
    var r1 := ProfileStep(s0, f, durations, "defaults", c.defaults);
    assert r1.Success?;
    var r2 := ProfileStep(r1.value, f, durations, name, p);
    assert r2.Success?;
    var r3 := RunFileStep(r2.value, f, durations, f.configPath, rf);
    assert Layered(f, durations, Some(c), Some(rf)) == r3;
    FourFilled(f.remote, c.defaults.remote, p.remote, rf.remote);
    FourFilled(f.logDir, c.defaults.logDir, p.logDir, rf.logDir);
    FourFilled(f.script, c.defaults.script, p.script, rf.script);
    FourFilled(f.artifactRemote, c.defaults.artifactRemote, p.artifactRemote, rf.artifactRemote);
    FourFilled(f.artifactDest, c.defaults.artifactDest, p.artifactDest, rf.artifactDest);
    FourFilled(f.buildScript, c.defaults.buildScript, p.buildScript, rf.buildScript);
    ThreeFilled(Cleaned(c.defaults.artifactPatterns + [c.defaults.artifactPattern]),
                Cleaned(p.artifactPatterns + [p.artifactPattern]), Cleaned(rf.artifactPatterns + [rf.artifactPattern]));
    ThreeFilled(c.defaults.artifactSources, p.artifactSources, rf.artifactSources);
    ThreeGiven(c.defaults.sinceStart, p.sinceStart, rf.sinceStart, f.sinceStart.GetOr(true));
    ThreeGiven(Interval(durations, c.defaults.pollInterval), Interval(durations, p.pollInterval),
               Interval(durations, rf.pollInterval), DefaultPollSeconds);
  }

  /** The interval a layer sets: none when its text is empty, otherwise the parsed one. */
  function Interval(durations: string -> Option<int>, text: string): Option<int> {
    if text == [] then None else durations(text)
  }

  /** Filling an empty value three times in turn takes the first non-empty one. */
  lemma ThreeFilled<T>(a: seq<T>, b: seq<T>, c: seq<T>)
    ensures Fill(Fill(Fill([], a), b), c) == FirstFilled([a, b, c])
  {
    FourFilled([], a, b, c);
    assert [[], a, b, c][1..] == [a, b, c];
  }

  /** Filling four times in turn takes the first non-empty value. */
  lemma FourFilled<T>(a: seq<T>, b: seq<T>, c: seq<T>, d: seq<T>)
    ensures Fill(Fill(Fill(a, b), c), d) == FirstFilled([a, b, c, d])
  {
    assert [d][1..] == [];
    assert FirstFilled([d]) == d;
    assert [c, d][1..] == [d];
    assert FirstFilled([c, d]) == Fill(c, d);
    assert [b, c, d][1..] == [c, d];
    assert FirstFilled([b, c, d]) == Fill(b, Fill(c, d));
    assert [a, b, c, d][1..] == [b, c, d];
  }

  /** Overwriting three times in turn keeps the last setting. */
  lemma ThreeGiven<T>(a: Option<T>, b: Option<T>, c: Option<T>, start: T)
    ensures (if c.Some? then c.value else if b.Some? then b.value else if a.Some? then a.value else start)
        == LastGiven([a, b, c], start)
  {
    assert [a][..0] == [];
    assert LastGiven([a], start) == a.GetOr(start);
    assert [a, b][..1] == [a];
    assert LastGiven([a, b], start) == b.GetOr(a.GetOr(start));
    assert [a, b, c][..2] == [a, b];
  }

  // ---------------------------------------------------------------------------
  // The checks after layering

  /** A source `cmdRun` accepts: a non-empty, absolute path. */
  predicate GoodSource(s: Source) {
    Paths.IsAbsolute(s.path)
  }

  /** The error for a rejected source at 1-based position `pos`. */
  function SourceError(pos: int, s: Source): Err {
    if s.path == [] then RunSourceEmptyPath(pos) else RunSourceNotAbsolute(s.path)
  }

  /** The source loop of `cmdRun`: each source in order must be good, and gets its cleaned patterns. */
  function Checked(src: seq<Source>): Result<seq<Source>, Err> {
    if src == [] then Success([])
    else
      match Checked(src[..|src| - 1])
      case Failure(e) => Failure(e)
      case Success(ok) =>
        var s := src[|src| - 1];
        if !GoodSource(s) then Failure(SourceError(|src|, s))
        else Success(ok + [Source(s.path, Cleaned(s.patterns))])
  }

  /**
   * The loop accepts exactly the lists whose sources are all good, giving each its
   * cleaned patterns; otherwise it reports the first bad source by its position.
   */
  lemma {:induction false} CheckedMeaning(src: seq<Source>)
    ensures var r := Checked(src);
      && (r.Success? <==> forall i :: 0 <= i < |src| ==> GoodSource(src[i]))
      && (r.Success? ==>
            && |r.value| == |src|
            && forall i :: 0 <= i < |src| ==> r.value[i] == Source(src[i].path, Cleaned(src[i].patterns)))
      && (r.Failure? ==>
            exists k :: && 0 <= k < |src| && !GoodSource(src[k])
                        && (forall j :: 0 <= j < k ==> GoodSource(src[j]))
                        && r.error == SourceError(k + 1, src[k]))
  {
    if src != [] {
      var init := src[..|src| - 1];
      CheckedMeaning(init);
      assert forall i :: 0 <= i < |init| ==> init[i] == src[i];
      if Checked(init).Failure? {
        var k :| 0 <= k < |init| && !GoodSource(init[k])
          && (forall j :: 0 <= j < k ==> GoodSource(init[j])) && Checked(init).error == SourceError(k + 1, init[k]);
        assert !GoodSource(src[k]);
      } else if !GoodSource(src[|src| - 1]) {
        assert !GoodSource(src[|init|]);
      }
    }
  }

  /** Once a source is rejected, later sources are not looked at. */
  lemma {:induction false} CheckedStops(a: seq<Source>, b: seq<Source>)
    requires Checked(a).Failure?
    ensures Checked(a + b) == Checked(a)
    decreases |b|
  {
    if b == [] {
      assert a + b == a;
    } else {
      var ab := a + b;
      assert ab[..|ab| - 1] == a + b[..|b| - 1];
      CheckedStops(a, b[..|b| - 1]);
    }
  }

  /** `cmdRun`'s source loop, rewriting each source's patterns in place. */
  method ValidateSources(src: seq<Source>) returns (r: Result<seq<Source>, Err>)
    ensures r == Checked(src)
  {
    var out := src;
    for i := 0 to |src|
      invariant |out| == |src| && out[i..] == src[i..]
      invariant Checked(src[..i]) == Success(out[..i])
    {
      assert src[..i + 1][..i] == src[..i];
      if out[i].path == [] || !Paths.IsAbsolute(out[i].path) {
        if out[i].path == [] {
          r := Failure(RunSourceEmptyPath(i + 1));
        } else {
          r := Failure(RunSourceNotAbsolute(out[i].path));
        }
        CheckedStops(src[..i + 1], src[i + 1..]);
        assert src[..i + 1] + src[i + 1..] == src;
        return;
      }
      var pats := EnsurePatterns(out[i].patterns);
      out := out[i := Source(out[i].path, pats)];
      assert out[..i + 1] == out[..i] + [out[i]];
    }
    assert src[..|src|] == src && out[..|src|] == out;
    return Success(out);
  }

  /** What `cmdRun` submits and records once every check has passed. */
  datatype RunPlan = RunPlan(
    remote: string, name: string, logDir: string, script: string, buildScript: string, scriptLocal: string,
    artifactRemote: string, artifactDest: string, sources: seq<Source>, patterns: seq<string>,
    combinedPattern: string, primaryRemote: string, sinceStart: bool, poll: int, args: seq<string>,
    logTemplate: string, profile: string)

  /**
   * The checks of `cmdRun` before it looks at the sources, in its order: the
   * required fields (the remote host may come from `EXP_REMOTE`, given as
   * `envRemote`), an absolute artifact remote, and the artifact remote and
   * destination given together unless sources are. Gives the remote host.
   */
  function Required(s: Settings, envRemote: string): (r: Result<string, Err>)
    ensures r.Success? ==> r.value == Fill(s.remote, envRemote) && r.value != []
    ensures r.Success? ==> s.name != [] && s.logDir != [] && s.script != []
    ensures r.Success? ==> s.artifactRemote == [] || Paths.IsAbsolute(s.artifactRemote)
    ensures r.Success? && |s.artifactSources| == 0 ==> (s.artifactRemote == []) == (s.artifactDest == [])
    ensures r.Success? <==>
      && Fill(s.remote, envRemote) != [] && s.name != [] && s.logDir != [] && s.script != []
      && (s.artifactRemote == [] || Paths.IsAbsolute(s.artifactRemote))
      && (|s.artifactSources| > 0 || (s.artifactRemote == []) == (s.artifactDest == []))
    ensures Fill(s.remote, envRemote) == [] || s.name == [] || s.logDir == [] || s.script == []
      ==> r == Failure(RequiredMissing)
    ensures Fill(s.remote, envRemote) != [] && s.name != [] && s.logDir != [] && s.script != []
      && s.artifactRemote != [] && !Paths.IsAbsolute(s.artifactRemote)
      ==> r == Failure(ArtifactRemoteNotAbsolute)
    ensures Fill(s.remote, envRemote) != [] && s.name != [] && s.logDir != [] && s.script != []
      && (s.artifactRemote == [] || Paths.IsAbsolute(s.artifactRemote))
      && |s.artifactSources| == 0 && (s.artifactRemote == []) != (s.artifactDest == [])
      ==> r == Failure(ArtifactPairIncomplete)
  {
    var remote := Fill(s.remote, envRemote);
    if remote == [] || s.name == [] || s.logDir == [] || s.script == [] then Failure(RequiredMissing)
    else if s.artifactRemote != [] && !Paths.IsAbsolute(s.artifactRemote) then Failure(ArtifactRemoteNotAbsolute)
    else if |s.artifactSources| == 0 && ((s.artifactRemote == []) != (s.artifactDest == [])) then Failure(ArtifactPairIncomplete)
    else Success(remote)
  }

  /** The flags' patterns replace the layered ones. */
  function PlanPatterns(s: Settings, f: RunFlags): seq<string> {
    if |f.patterns| > 0 then f.patterns else s.configPatterns
  }

  /** The sources to check: the layered ones, or else the artifact remote with the cleaned patterns. */
  function SourcesOf(s: Settings, patterns: seq<string>): seq<Source> {
    if |s.artifactSources| == 0 && s.artifactRemote != [] then [Source(s.artifactRemote, Cleaned(patterns))]
    else s.artifactSources
  }

  /** The patterns of the record: those of the sources, or else the run's own patterns, newline-joined. */
  function CombinedPattern(sources: seq<Source>, patterns: seq<string>): string {
    var c := Join(Cleaned(Flattened(sources)), "\n");
    if c == [] then Join(Cleaned(patterns), "\n") else c
  }

  /**
   * The record's pattern string reads back as the patterns it was made from: the
   * sources' cleaned patterns when there are any, the run's own otherwise.
   */
  lemma CombinedReadsBack(srcs: seq<Source>, patterns: seq<string>)
    requires forall i :: 0 <= i < |Flattened(srcs)| ==> '\n' !in Flattened(srcs)[i]
    requires forall i :: 0 <= i < |patterns| ==> '\n' !in patterns[i]
    ensures PatternLines(CombinedPattern(srcs, patterns))
         == (if Cleaned(Flattened(srcs)) != [] then Cleaned(Flattened(srcs)) else Cleaned(patterns))
  {
    var c := Cleaned(Flattened(srcs));
    SplitCombine(Flattened(srcs));
    SplitCombine(patterns);
    if c != [] {
      JoinClean(c, "\n");
    } else {
      assert Join(c, "\n") == [];
    }
  }

  /**
   * The plan from checked values: the record's patterns, the first source's path
   * as the artifact remote of the record, the run file's arguments when the flags
   * give none, and the log template under the log directory.
   */
  function Assemble(s: Settings, f: RunFlags, runFile: Option<RunFile>, remote: string, patterns: seq<string>,
                    srcs: seq<Source>): RunPlan
  {
    var args := if |f.args| == 0 && runFile.Some? && |runFile.value.args| > 0 then runFile.value.args else f.args;
    RunPlan(remote, s.name, s.logDir, s.script, s.buildScript, s.scriptLocal, s.artifactRemote,
            s.artifactDest, srcs, patterns, CombinedPattern(srcs, patterns),
            if |srcs| > 0 then srcs[0].path else s.artifactRemote,
            s.sinceStart, s.poll, args, Slurm.LogTemplate(s.logDir, s.name), s.profile)
  }

  /**
   * The checks of `cmdRun` after layering: the first checks, a destination only
   * with sources, then each source. In `cmdRun` the remote build script and the
   * script upload run between the first checks and the rest; they are not modelled.
   */
  function Prepare(s: Settings, f: RunFlags, runFile: Option<RunFile>, envRemote: string): Result<RunPlan, Err> {
    match Required(s, envRemote)
    case Failure(e) => Failure(e)
    case Success(remote) =>
      var patterns := PlanPatterns(s, f);
      var sources := SourcesOf(s, patterns);
      if s.artifactDest != [] && |sources| == 0 then Failure(SourcesRequired)
      else
        match Checked(sources)
        case Failure(e) => Failure(e)
        case Success(srcs) => Success(Assemble(s, f, runFile, remote, patterns, srcs))
  }

  /**
   * What an accepted plan guarantees: the required fields are present; every
   * source has an absolute path and cleaned patterns; an artifact remote given alone
   * becomes the one source, with the cleaned patterns; a destination comes with at
   * least one source; and the record's artifact remote is the first source's path.
   * So the check "a destination needs sources" never fires: the pairing check
   * before it already rejects a destination without sources.
   */
  lemma PrepareMeaning(s: Settings, f: RunFlags, runFile: Option<RunFile>, envRemote: string)
    ensures var r := Prepare(s, f, runFile, envRemote);
      && r != Failure(SourcesRequired)
      && (r.Success? ==>
            var p := r.value;
            && p.remote != [] && p.name != [] && p.logDir != [] && p.script != []
            && (p.artifactRemote == [] || Paths.IsAbsolute(p.artifactRemote))
            && (forall i :: 0 <= i < |p.sources| ==> GoodSource(p.sources[i]))
            && (forall i, k :: 0 <= i < |p.sources| && 0 <= k < |p.sources[i].patterns| ==>
                  Clean(p.sources[i].patterns[k]))
            && (p.artifactDest != [] ==> |p.sources| > 0)
            && (|s.artifactSources| == 0 && s.artifactRemote != [] ==>
                  p.sources == [Source(s.artifactRemote, Cleaned(p.patterns))])
            && (|s.artifactSources| > 0 ==> |p.sources| == |s.artifactSources|)
            && p.primaryRemote == (if |p.sources| > 0 then p.sources[0].path else p.artifactRemote))
  {
    var req := Required(s, envRemote);
    if req.Success? {
      var sources := SourcesOf(s, PlanPatterns(s, f));
      CheckedMeaning(sources);
      var chk := Checked(sources);
      if chk.Success? {
        PreparedPlan(s, f, runFile, envRemote);
        if |s.artifactSources| == 0 && s.artifactRemote != [] {
          CleanedIdempotent(PlanPatterns(s, f));
        }
        forall i, k | 0 <= i < |chk.value| && 0 <= k < |chk.value[i].patterns|
          ensures Clean(chk.value[i].patterns[k])
        {
          assert chk.value[i].patterns == Cleaned(sources[i].patterns);
        }
      }
    }
  }

  /**
   * The checks after layering accept exactly the settings that pass the first checks
   * and whose every source is good; otherwise the first failing check gives the error.
   */
  lemma PrepareAccepts(s: Settings, f: RunFlags, runFile: Option<RunFile>, envRemote: string)
    ensures var r := Prepare(s, f, runFile, envRemote);
      var req := Required(s, envRemote);
      var sources := SourcesOf(s, PlanPatterns(s, f));
      && (r.Success? <==> req.Success? && forall i :: 0 <= i < |sources| ==> GoodSource(sources[i]))
      && (req.Failure? ==> r == Failure(req.error))
      && (req.Success? && Checked(sources).Failure? ==> r == Failure(Checked(sources).error))
  {
    CheckedMeaning(SourcesOf(s, PlanPatterns(s, f)));
  }

  /** An accepted plan carries the remote host, the checked sources and the layered fields. */
  lemma PreparedPlan(s: Settings, f: RunFlags, runFile: Option<RunFile>, envRemote: string)
    requires Prepare(s, f, runFile, envRemote).Success?
    ensures var p := Prepare(s, f, runFile, envRemote).value;
      && Required(s, envRemote) == Success(p.remote)
      && Checked(SourcesOf(s, PlanPatterns(s, f))) == Success(p.sources)
      && p.patterns == PlanPatterns(s, f)
      && p.name == s.name && p.logDir == s.logDir && p.script == s.script
      && p.artifactRemote == s.artifactRemote && p.artifactDest == s.artifactDest
      && p.primaryRemote == (if |p.sources| > 0 then p.sources[0].path else p.artifactRemote)
  {
  }

  /** The whole settlement of `cmdRun` before submission. */
  function Settle(f: RunFlags, durations: string -> Option<int>, cfg: Option<Config>, runFile: Option<RunFile>,
                  envRemote: string): Result<RunPlan, Err>
  {
    match Layered(f, durations, cfg, runFile)
    case Failure(e) => Failure(e)
    case Success(s) => Prepare(s, f, runFile, envRemote)
  }

  // ---------------------------------------------------------------------------
  // The captured locals, updated in place

  /** The local variables `cmdRun`'s layer closures update. */
  class Locals {
    var remote: string
    var name: string
    var logDir: string
    var script: string
    var buildScript: string
    var scriptLocal: string
    var artifactRemote: string
    var artifactDest: string
    var configPatterns: seq<string>
    var artifactSources: seq<Source>
    var sinceStart: bool
    var poll: int
    var profile: string

    /** The locals as the flags leave them. */
    constructor (f: RunFlags)
      ensures Snapshot() == Initial(f)
    {
      remote, name, logDir, script := f.remote, f.name, f.logDir, f.script;
      buildScript, scriptLocal, artifactRemote, artifactDest := f.buildScript, f.scriptLocal, f.artifactRemote, f.artifactDest;
      configPatterns, artifactSources := [], [];
      sinceStart := f.sinceStart.GetOr(true);
      poll := f.poll.GetOr(DefaultPollSeconds);
      profile := f.profile;
    }

    /** The current values. */
    function Snapshot(): Settings
      reads this
    {
      Settings(remote, name, logDir, script, buildScript, scriptLocal, artifactRemote, artifactDest,
               configPatterns, artifactSources, sinceStart, poll, profile)
    }

    /** Fills the six string fields that are still empty. */
    method FillFields(remote': string, logDir': string, script': string, buildScript': string,
                      artifactRemote': string, artifactDest': string)
      modifies this
      ensures Snapshot() == Filled(old(Snapshot()), remote', logDir', script', buildScript', artifactRemote', artifactDest')
    {
      var s := Filled(Snapshot(), remote', logDir', script', buildScript', artifactRemote', artifactDest');
      remote, logDir, script, buildScript, artifactRemote, artifactDest :=
        s.remote, s.logDir, s.script, s.buildScript, s.artifactRemote, s.artifactDest;
    }

    /** Takes a layer's pattern list (normalized) and source list (copied) while the current ones are empty. */
    method AdoptLists(single: string, list: seq<string>, sources: seq<Source>)
      modifies this
      ensures Snapshot() == WithLists(old(Snapshot()), Cleaned(list + [single]), sources)
    {
      if |configPatterns| == 0 {
        var pats := NormalizePatternList(single, list);
        if |pats| > 0 { configPatterns := pats; }
      }
      if |artifactSources| == 0 && |sources| > 0 {
        artifactSources := CopySources(sources);
      }
    }

    /** Takes a layer's since-start setting unless the flag was given. */
    method AdoptSinceStart(f: RunFlags, given: Option<bool>)
      modifies this
      ensures Snapshot() == WithSince(old(Snapshot()), f, given)
    {
      if f.sinceStart.None? && given.Some? { sinceStart := given.value; }
    }

    /** Takes a layer's poll interval unless the flag was given; an interval that does not parse is returned as the error. */
    method AdoptPoll(f: RunFlags, durations: string -> Option<int>, interval: string, source: string)
      returns (err: Option<Err>)
      modifies this
      ensures var r := WithPoll(old(Snapshot()), f, durations, interval, source);
        && (r.Failure? ==> err == Some(r.error))
        && (r.Success? ==> err == None && Snapshot() == r.value)
    {
      if f.poll.None? && interval != [] {
        var d := durations(interval);
        if d.None? {
          return Some(InvalidPollInterval(interval, source));
        }
        poll := d.value;
      }
      return None;
    }

    /** `applyProfile`. On an error `cmdRun` stops, so the locals it leaves behind do not matter. */
    method ApplyProfile(f: RunFlags, durations: string -> Option<int>, source: string, p: Profile)
      returns (err: Option<Err>)
      modifies this
      ensures var r := ProfileStep(old(Snapshot()), f, durations, source, p);
        && (r.Failure? ==> err == Some(r.error))
        && (r.Success? ==> err == None && Snapshot() == r.value)
    {
      FillFields(p.remote, p.logDir, p.script, p.buildScript, p.artifactRemote, p.artifactDest);
      AdoptLists(p.artifactPattern, p.artifactPatterns, p.artifactSources);
      AdoptSinceStart(f, p.sinceStart);
      err := AdoptPoll(f, durations, p.pollInterval, "profile " + source);
    }

    /** The profile and name taken from the run file before any layering. */
    method AdoptEarly(f: RunFlags, runFile: Option<RunFile>)
      requires Snapshot() == Initial(f)
      modifies this
      ensures Snapshot() == Early(f, runFile)
    {
      if runFile.Some? {
        if profile == [] && runFile.value.profile != [] { profile := runFile.value.profile; }
        if name == [] && runFile.value.name != [] { name := runFile.value.name; }
      }
    }

    /** `defaults`, then the named profile, which must exist, each applied to the locals. */
    method ApplyConfig(f: RunFlags, durations: string -> Option<int>, c: Config) returns (err: Option<Err>)
      modifies this
      ensures var r := ConfigLayer(old(Snapshot()), f, durations, c);
        && (r.Failure? ==> err == Some(r.error))
        && (r.Success? ==> err == None && Snapshot() == r.value)
    {
      err := ApplyProfile(f, durations, "defaults", c.defaults);
      if err.Some? {
        return;
      }
      if profile != [] {
        if profile !in c.profiles {
          return Some(ProfileNotFound(profile, c.path));
        }
        err := ApplyProfile(f, durations, profile, c.profiles[profile]);
      }
    }

    /** `applyRunFile`: the run file's layer, applied to the locals in place. */
    method ApplyRunFile(f: RunFlags, durations: string -> Option<int>, source: string, rf: RunFile)
      returns (err: Option<Err>)
      modifies this
      ensures var r := RunFileStep(old(Snapshot()), f, durations, source, rf);
        && (r.Failure? ==> err == Some(r.error))
        && (r.Success? ==> err == None && Snapshot() == r.value)
    {
      FillFields(rf.remote, rf.logDir, rf.script, rf.buildScript, rf.artifactRemote, rf.artifactDest);
      scriptLocal := Fill(scriptLocal, rf.scriptLocal);
      AdoptLists(rf.artifactPattern, rf.artifactPatterns, rf.artifactSources);
      AdoptSinceStart(f, rf.sinceStart);
      err := AdoptPoll(f, durations, rf.pollInterval, source);
      if err.Some? {
        return;
      }
      name := Fill(name, rf.name);
    }
  }

  /** The layering of `cmdRun`, on its locals. */
  method LayerSettings(f: RunFlags, durations: string -> Option<int>, cfg: Option<Config>, runFile: Option<RunFile>)
    returns (r: Result<Settings, Err>)
    ensures r == Layered(f, durations, cfg, runFile)
  {
    var loc := new Locals(f);
    loc.AdoptEarly(f, runFile);
    if cfg.None? {
      if loc.profile != [] {
        return Failure(ProfileWithoutConfig(loc.profile));
      }
    } else {
      var err := loc.ApplyConfig(f, durations, cfg.value);
      if err.Some? {
        return Failure(err.value);
      }
    }
    if runFile.Some? {
      var err := loc.ApplyRunFile(f, durations, f.configPath, runFile.value);
      if err.Some? {
        return Failure(err.value);
      }
    }
    return Success(loc.Snapshot());
  }

  /** The first checks of `cmdRun`, step by step. */
  method CheckRequired(s: Settings, envRemote: string) returns (r: Result<string, Err>)
    ensures r == Required(s, envRemote)
  {
    var remote := s.remote;
    if remote == [] {
      remote := envRemote;
    }
    if remote == [] || s.name == [] || s.logDir == [] || s.script == [] {
      return Failure(RequiredMissing);
    }
    if s.artifactRemote != [] && !Paths.IsAbsolute(s.artifactRemote) {
      return Failure(ArtifactRemoteNotAbsolute);
    }
    if |s.artifactSources| == 0 && (s.artifactRemote == []) != (s.artifactDest == []) {
      return Failure(ArtifactPairIncomplete);
    }
    return Success(remote);
  }

  /** The sources `cmdRun` checks: a copy of the layered ones, or the artifact remote alone. */
  method SourcesFor(s: Settings, patterns: seq<string>) returns (sources: seq<Source>)
    ensures sources == SourcesOf(s, patterns)
  {
    sources := CopySources(s.artifactSources);
    if |sources| == 0 && s.artifactRemote != [] {
      var pats := EnsurePatterns(patterns);
      sources := [Source(s.artifactRemote, pats)];
    }
  }

  /** The values `cmdRun` derives once the sources are checked. */
  method AssemblePlan(s: Settings, f: RunFlags, runFile: Option<RunFile>, remote: string, patterns: seq<string>,
                      srcs: seq<Source>) returns (p: RunPlan)
    ensures p == Assemble(s, f, runFile, remote, patterns, srcs)
  {
    var flat := FlattenPatterns(srcs);
    var combined := CombinePatterns(flat);
    if combined == [] {
      combined := CombinePatterns(patterns);
    }
    var primary := s.artifactRemote;
    if |srcs| > 0 {
      primary := srcs[0].path;
    }
    var args := f.args;
    if |args| == 0 && runFile.Some? && |runFile.value.args| > 0 {
      args := runFile.value.args;
    }
    var template := Slurm.LogTemplate(s.logDir, s.name);
    p := RunPlan(remote, s.name, s.logDir, s.script, s.buildScript, s.scriptLocal, s.artifactRemote,
                 s.artifactDest, srcs, patterns, combined, primary, s.sinceStart, s.poll, args, template, s.profile);
  }

  /** The checks of `cmdRun` after layering, step by step. */
  method PrepareRun(s: Settings, f: RunFlags, runFile: Option<RunFile>, envRemote: string) returns (r: Result<RunPlan, Err>)
    ensures r == Prepare(s, f, runFile, envRemote)
  {
    var req := CheckRequired(s, envRemote);
    if req.Failure? {
      return Failure(req.error);
    }
    var patterns := s.configPatterns;
    if |f.patterns| > 0 {
      patterns := f.patterns;
    }
    var sources := SourcesFor(s, patterns);
    if s.artifactDest != [] && |sources| == 0 {
      return Failure(SourcesRequired);
    }
    var checked := ValidateSources(sources);
    if checked.Failure? {
      return Failure(checked.error);
    }
    var plan := AssemblePlan(s, f, runFile, req.value, patterns, checked.value);
    return Success(plan);
  }

  /** `cmdRun` up to submission: layering, then the checks. */
  method SettleRun(f: RunFlags, durations: string -> Option<int>, cfg: Option<Config>, runFile: Option<RunFile>,
                   envRemote: string) returns (r: Result<RunPlan, Err>)
    ensures r == Settle(f, durations, cfg, runFile, envRemote)
  {
    var layered := LayerSettings(f, durations, cfg, runFile);
    if layered.Failure? {
      return Failure(layered.error);
    }
    r := PrepareRun(layered.value, f, runFile, envRemote);
  }
}
