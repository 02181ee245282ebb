# Experiment tracker core, modelled in Dafny

`exp` is a command-line tracker for batch jobs that run on a Slurm cluster over SSH.
`exp run` settles a job's settings from flags, a config file and a per-run file,
checks them, submits the script with `sbatch` and records the experiment. The monitor
then polls the job's state with `squeue`, falling back to `sacct`, and writes every
state it observes to the store. Once the job has left the active states, the monitor
fetches the job's artifacts. For each artifact source, the fetch:

- lists the remote tree with `find`: first the since-start window, then without a time filter, each up to six times;
- keeps the files that a regular expression selects;
- copies them with `rsync`.

`exp fetch` runs the same artifact fetch on demand, with per-invocation overrides.

This project models that core of `main/main.go`:

- **Status classification and lookup** (`Slurm`): `isActiveStatus`; `runSqueue` and `runSacct` output parsing; `queryJobStatus`'s two-tier lookup; `submitSbatchSSH`'s job-id parsing; the log template and log path.
- **The monitor** (`Monitor`): `monitorExperiment`'s polling loop and the fetch that follows it.
- **Artifact discovery, filtering and transfer** (`Fetch`, `Listing`):
  - `fetchArtifactSources` and `fetchArtifacts`;
  - `patternMatches`;
  - `listRemoteFiles`' script and output parsing;
  - `rsyncFiles`' source root and manifest.
- **The pattern and source helpers** (`Patterns`) and `EffectiveArtifactSources` (`Experiments`).
- **Resolution and validation**: `cmdRun`'s layering and checks (`RunConfig`); `cmdFetch`'s flag resolution and sync recording (`FetchCommand`).
- **Supporting Go functions** (`Text`, `Paths`): the parts of Go's `strings` and `path/filepath` the core relies on, and `shellQuote`.

Effects are modelled as follows:

- **Remote commands.** Every remote command (`ssh … squeue`, `ssh … sacct`, `ssh … bash -lc find …`, `rsync`) and every pause is a `Remote.Call` appended to a history.
- **Command results.** An environment `Env` answers each call as a function of the history so far.
- **The clock.** The clock is a function of the history too.
- **The store.** The experiment store is a log of `updateExperimentStatus` and `recordArtifactSync` writes (`Experiments.Store`).
- **Mutable fields.** The fields `monitorExperiment` updates in place are variables of the `Experiments.Experiment` class. So are the locals that `cmdRun`'s `applyProfile` and `applyRunFile` closures update (`RunConfig.Locals`).
- **Regular expressions.** The regex engine is a pair of uninterpreted functions (`Fetch.Regex`).
- **Durations.** `time.ParseDuration` is an abstract function into whole seconds.

Most loops of the source are methods proved equal to a specification function:

- the polling loop, the retry loops and the source loops;
- the pattern loops and the validation loop;
- the listing parser.

The properties the source promises are lemmas about those functions.

**Precedence.** `cmdRun` applies its layers in a fixed order: flags, then `defaults`, then the named profile, then the per-run file (main/main.go:741-803). Two rules follow from how each layer writes:

- **String and list fields.** A field is filled only while it is still empty. So the first layer that sets it wins: a flag, then `defaults`, then the profile, then the run file.
- **Since-start and poll interval.** Unless the flag was given, each layer that sets one of them overwrites it. So the last layer that sets it wins.

`RunConfig.Precedence` states both rules.

## Model

| member | source | states |
|---|---|---|
| Slurm.ActiveStateName | main/main.go:1294-1301 | a state name as Slurm prints it is active exactly when it is one of PENDING, CONFIGURING, RUNNING, COMPLETING, SUSPENDED, RESV_DEL_HOLD, SPECIAL_EXIT |
| Slurm.CanonicalStatus | main/main.go:1294-1301 | a status that is already trimmed and upper-case is active exactly when it is one of the seven active states |
| Slurm.TerminalStateName | main/main.go:1298-1299 | every other state name is terminal |
| Slurm.IsActiveStatus | main/main.go:1294-1301 | `isActiveStatus`; what it means is stated by `ActiveStateName`, `CanonicalStatus`, `ActivePadding`, `ActiveCaseInsensitive` and `TerminalStateName` |
| Slurm.ActivePadding | main/main.go:1295 | white space around a status does not change whether it is active |
| Slurm.ActiveCaseInsensitive | main/main.go:1295 | letter case does not change whether a status is active |
| Slurm.EmptyStatusTerminal | main/main.go:1294-1301 | the empty status is terminal |
| Slurm.UnknownTerminal | main/main.go:1294-1301 | "UNKNOWN" is terminal |
| Slurm.SubmittedTerminal | main/main.go:1294-1301 | "SUBMITTED" is terminal |
| Slurm.SqueueState | main/main.go:1325-1337 | a failed squeue is an error carrying its output; otherwise the state is trimmed and a single line |
| Slurm.SqueueBlank | main/main.go:1331-1334 | squeue reports no state exactly when its output is blank |
| Slurm.SqueueFirstLine | main/main.go:1331-1336 | the state is the first line of the output, whatever follows |
| Slurm.LineState | main/main.go:1350-1354 | a sacct state has no space and no `+` at either end |
| Slurm.LineStateCut | main/main.go:1351-1354 | a line such as `CANCELLED+ by 1234` yields its first word with `+` trimmed |
| Slurm.FirstNonBlank | main/main.go:1345-1349 | the line found is non-blank and trimmed |
| Slurm.FirstNonBlankNone | main/main.go:1345-1357 | no line is found exactly when every line is blank |
| Slurm.SacctState | main/main.go:1339-1358 | a failed sacct is an error carrying its output; otherwise the state has no space |
| Slurm.RunSacct | main/main.go:1345-1357 | the line scan returns exactly the state `SacctState` specifies |
| Slurm.SacctFirstLine | main/main.go:1345-1356 | sacct's state is read from the first non-blank line |
| Slurm.QueryJobStatus | main/main.go:1303-1323 | an empty job id gives UNKNOWN with no command run; a squeue error propagates after exactly one call; a status found is never empty; at most two commands run |
| Slurm.QueryJobStatusCases | main/main.go:1303-1323 | the four ways the lookup ends: squeue fails, squeue reports a state, sacct reports a state, or UNKNOWN after a failed or empty sacct |
| Slurm.ParseSubmission | main/main.go:604-616 | submission succeeds exactly on a clean exit with non-blank output; then the job id is a non-empty token; a failed or blank answer gives the matching error |
| Slurm.SubmissionJobId | main/main.go:611-615 | the job id is the last white-space separated token of the whole output |
| Slurm.SubmittedBatchJob | main/main.go:610-615 | `Submitted batch job N` yields `N` |
| Slurm.LogTemplate | main/main.go:885 | the `--output` template; `LogPathOf` states what it yields |
| Slurm.LogPath | main/main.go:894 | the recorded log path; `LogPathOf` states that it is `NAME-ID.out` under the log directory |
| Slurm.LogPathOf | main/main.go:884-894 | the recorded log path is `NAME-ID.out` under the log directory |
| Paths.Base | main/main.go:1582 | `filepath.Base` is never empty, is "." for "", and is "/" or free of slashes |
| Paths.BaseOfElement | main/main.go:1582 | the base of a path ending in a slash-free element is that element |
| Paths.Join | main/main.go:1580 | for two non-empty parts, the result starts with the first part, stripped of trailing slashes, and one slash; an empty part gives the other part as it is (without `filepath.Clean`) |
| Paths.JoinBase | main/main.go:1580-1582 | the base of a joined path is its last element |
| Paths.JoinAppend | main/main.go:885 | text appended to the last element is appended to the join |
| Paths.JoinExcludes | main/main.go:1580 | joining introduces no character other than the slash |
| Paths.ShellQuote | main/main.go:1594-1599 | the quoted word starts and ends with a single quote |
| Paths.ShellQuoteRoundTrip | main/main.go:1594-1599 | a POSIX shell reads the quoted word back as exactly the original string |
| Listing.Cutoff | main/main.go:1508-1509 | the `-newermt` bound, two minutes before the start; `FindScriptWindow` states where it appears |
| Listing.FindScript | main/main.go:1505-1513 | the script `listRemoteFiles` runs; `FindScriptWindow` states its two forms |
| Listing.FindScriptWindow | main/main.go:1505-1513 | the script changes into the quoted root and lists every regular file; with a start time it adds `-newermt '@EPOCH'` with the start less the grace period, and without one it adds no time test |
| Listing.NewerFilterAt | main/main.go:1507-1511 | the epoch bound holds no single quote, so quoting leaves it as `'@EPOCH'` |
| Listing.ListSpec | main/main.go:1514-1541 | one listing appends exactly its `ssh … bash -lc` call to the history |
| Listing.RunFind | main/main.go:1514-1541 | running a built script and parsing its output returns exactly `ListSpec` |
| Listing.ListRemoteFiles | main/main.go:1499-1542 | builds the find script and returns exactly the listing `ListSpec` specifies |
| Listing.ListedPaths | main/main.go:1531-1540 | the listing never has more paths than output lines |
| Listing.ParseFindOutput | main/main.go:1527-1541 | the line scan returns exactly `ParseListing` of the output |
| Listing.FindOutputRoundTrip | main/main.go:1527-1540 | find's output for printable paths reads back as exactly those paths, in order |
| Listing.ListedDotted | main/main.go:1533-1539 | each `./`-prefixed line yields its relative path |
| Listing.SourceRoot | main/main.go:1556-1559 | rsync's source root is the root without its trailing slashes: it is "/" exactly when the root is empty or all slashes, and otherwise a prefix of the root, not ending in a slash, followed in the root only by slashes |
| Listing.SourceRootAbsolute | main/main.go:1556-1559 | an absolute root stays absolute, and what it loses is only trailing slashes |
| Listing.Manifest | main/main.go:1563 | rsync's file list; `ManifestLines` states that its lines are exactly the files |
| Listing.RsyncCall | main/main.go:1556-1562 | the rsync command: `-av --files-from=-`, the remote source root with one trailing slash, the destination, fed the manifest; `RsyncFiles` states when it runs |
| Listing.ManifestLines | main/main.go:1563 | the manifest ends in a newline and its lines are exactly the files |
| Listing.RsyncFiles | main/main.go:1544-1571 | an empty file list runs nothing and succeeds; otherwise exactly one rsync call runs, succeeding exactly when rsync exits cleanly |
| Experiments.Experiment.EffectiveArtifactSources | main/main.go:1693-1707 | the recorded sources when there are any; otherwise none exactly when there is no artifact remote; otherwise the artifact remote with its stored patterns |
| Experiments.Experiment.EffectiveSourcesRoundTrip | main/main.go:1693-1707 | an experiment recorded with a combined pattern list fetches with exactly the cleaned list |
| Experiments.Store.UpdateStatus | main/main.go:1360-1368 | appends one status write, with or without a completion time |
| Experiments.Store.RecordArtifactSync | main/main.go:1370-1377 | appends one sync write with its time (Unset after a failure) and error text |
| Patterns.Cleaned | main/main.go:1657-1662 | cleaning never lengthens a list, and every entry kept is clean |
| Patterns.CleanedConcat | main/main.go:1637-1649 | cleaning distributes over concatenation |
| Patterns.CleanedFixed | main/main.go:1652-1664 | a clean list is left unchanged |
| Patterns.CleanedIdempotent | main/main.go:1652-1664 | `ensurePatterns` is idempotent |
| Patterns.NormalizePatternList | main/main.go:1637-1650 | the result is the cleaned list followed by the cleaned single pattern |
| Patterns.EnsurePatterns | main/main.go:1652-1664 | the result is the cleaned list |
| Patterns.CombinePatterns | main/main.go:1666-1675 | the result is the cleaned list joined by newlines |
| Patterns.PatternLines | main/main.go:1677-1691 | the patterns read back are clean and contain no newline |
| Patterns.PatternLinesBlank | main/main.go:1678-1681 | a blank string holds no patterns |
| Patterns.SplitPatterns | main/main.go:1677-1691 | the line scan returns exactly `PatternLines` |
| Patterns.SplitCombine | main/main.go:1666-1691 | for patterns without newlines, `splitPatterns(combinePatterns(ps)) == ensurePatterns(ps)` |
| Patterns.PatternLinesJoin | main/main.go:1677-1691 | clean, newline-free patterns joined by newlines read back as themselves |
| Patterns.Flattened | main/main.go:1709-1719 | flattening yields at least one entry per source |
| Patterns.FlattenedBlank | main/main.go:1709-1719 | the flattened patterns clean to nothing exactly when every source's patterns do |
| Patterns.OwnPatternsCleaned | main/main.go:1712-1714 | a source without patterns contributes only an entry that cleaning drops |
| Patterns.FlattenPatterns | main/main.go:1709-1719 | the loop returns exactly `Flattened` |
| Patterns.CopySources | main/main.go:1623-1635 | the copy equals the original |
| Fetch.AnyHitsSome | main/main.go:1583-1591 | the scan finds a hit exactly when some pattern hits the relative path, the base name or the full path |
| Fetch.PatternMatchesSome | main/main.go:1574-1592 | with no patterns every file matches; otherwise a file matches exactly when some pattern hits it |
| Fetch.CompiledMeaning | main/main.go:1459-1470 | compiling yields the cleaned patterns, all of which compile, or the error for a cleaned pattern that does not compile |
| Fetch.CompiledStops | main/main.go:1465-1468 | the first pattern that fails to compile decides; later patterns are not examined |
| Fetch.CompilePatterns | main/main.go:1459-1470 | the compile loop returns exactly `Compiled` |
| Fetch.Filtered | main/main.go:1472-1478 | filtering never lengthens the file list |
| Fetch.FilteredMembers | main/main.go:1472-1478 | a file is kept exactly when it is listed and selected by a pattern |
| Fetch.FilteredAll | main/main.go:1472-1478 | with no patterns every listed file is kept |
| Fetch.FilterFiles | main/main.go:1472-1478 | the filter loop returns exactly `Filtered` |
| Fetch.Windows | main/main.go:1422-1433 | the unfiltered listing comes last, after the since-start window when one is asked for |
| Fetch.Scripts | main/main.go:1435-1441 | there is one listing script per window |
| Fetch.Try | main/main.go:1437-1441 | a try pauses first unless it is the first try, then runs one listing |
| Fetch.TryLists | main/main.go:1441 | with `listRemoteFiles`' parser, a try is one `listRemoteFiles` call |
| Fetch.RetriesGrows | main/main.go:1436-1449 | the tries only extend the history, with listings and pauses and no transfer |
| Fetch.RetriesFound | main/main.go:1436-1449 | what the tries report comes from the last listing they ran |
| Fetch.RetriesShape | main/main.go:1436-1449 | one window is listed between one and six times, with pauses between tries, and reports nothing found only after all six |
| Fetch.RetriesQuiet | main/main.go:1436-1449 | every listing of a window before its last one succeeded and listed nothing; so did the last one when the window reports nothing after six tries |
| Fetch.DiscoverQuiet | main/main.go:1435-1450 | every listing before the last one, across both windows, succeeded and listed nothing, so the unfiltered window runs only after the since-start window found nothing; so did the last one when discovery reports nothing |
| Fetch.DiscoverGrows | main/main.go:1435-1450 | discovery only extends the history, transfers nothing, fails only with a listing error, and reports the files of its last listing |
| Fetch.TryWindow | main/main.go:1436-1449 | the retry loop for one window returns exactly `Retries` of that window's find script |
| Fetch.RetryScript | main/main.go:1436-1449 | up to six tries of one script, stopping at an error or a non-empty listing, return exactly `Retries` |
| Fetch.TryOnce | main/main.go:1437-1441 | one try pauses unless it is the first, then lists, as `Try` specifies |
| Fetch.DiscoverFiles | main/main.go:1435-1452 | the window loop, with its early exit, returns exactly `Discover` |
| Fetch.BlankListsNothing | main/main.go:1527-1530 | blank find output lists no files |
| Fetch.DiscoverSilent | main/main.go:1435-1457 | against a remote that lists nothing, every window is tried six times and nothing is found |
| Fetch.WindowSilent | main/main.go:1436-1449 | against a remote that lists nothing, one window is tried six times |
| Fetch.FetchOne | main/main.go:1396-1497 | the specification of `fetchArtifacts`; what it means is stated by `FetchValidation`, `FetchDryRun`, `FetchCopied`, `FetchSilent`, `FetchCopiesAll` and, for discovery, `DiscoverGrows` and `DiscoverQuiet` |
| Fetch.FetchValidation | main/main.go:1397-1417 | the argument checks come first, and are the only way a fetch ends without contacting the remote host; their error is the fetch's error |
| Fetch.FetchDryRun | main/main.go:1472-1491 | a dry run transfers nothing; its preview is the full remote path of exactly the listed files some cleaned pattern selects, in listing order |
| Fetch.FetchCopied | main/main.go:1472-1496 | a fetch that copies ends with a successful rsync of a non-empty list of files: exactly the listed files some cleaned pattern selects, in listing order |
| Fetch.FetchSilent | main/main.go:1452-1457 | when every listing is empty the fetch ends quietly after all tries, whatever the patterns |
| Fetch.FetchCopiesAll | main/main.go:1472-1496 | with no patterns every listed file is copied |
| Fetch.FetchArtifacts | main/main.go:1396-1497 | `fetchArtifacts` returns exactly `FetchOne` |
| Fetch.BatchedShape | main/main.go:1384-1393 | the source loop only extends the history and gives one outcome per source when it succeeds |
| Fetch.BatchedQuiet | main/main.go:1384-1393 | a source loop whose fetches transfer nothing transfers nothing |
| Fetch.BatchedStops | main/main.go:1389-1391 | once a source fails, later sources are not fetched |
| Fetch.FetchSourcesShape | main/main.go:1379-1394 | a successful batch has one outcome per source, and a dry-run batch transfers nothing |
| Fetch.FetchSourcesEmptyPath | main/main.go:1385-1387 | a source without a path fails the batch before anything is run for it |
| Fetch.FetchSource | main/main.go:1385-1391 | one iteration of the source loop returns exactly `SourceFetch` |
| Fetch.FetchArtifactSources | main/main.go:1379-1394 | `fetchArtifactSources` returns exactly `FetchSources` |
| Monitor.Rounds | main/main.go:1248-1269 | the specification of the polling loop; `PollWrites`, `RoundsStep`, `RoundsUnanswered`, `PollUnanswered` and `PollWithoutJob` state what it means |
| Monitor.PollWrites | main/main.go:1248-1269 | polling only extends the history; it completes exactly when the last status it saw is terminal, and then its last two writes are that status, first without and then with the completion time, every earlier write being an active status; when it has not completed, every write is an active status and the last status seen is the last one written |
| Monitor.RoundsUnanswered | main/main.go:1249-1254 | against a remote that never answers, each round is one query and one pause, with no writes |
| Monitor.PollUnanswered | main/main.go:1249-1254 | when squeue always fails, polling writes nothing and finds no status |
| Monitor.PollWithoutJob | main/main.go:1248-1266 | an experiment without a job id completes in the first round with status UNKNOWN |
| Monitor.RoundsStep | main/main.go:1248-1269 | one round: a failed query writes nothing, pauses and polls again; a successful query writes its status; an active status is followed by a pause and the next round; a terminal status is written a second time with the completion time, and polling ends |
| Monitor.PollJob | main/main.go:1248-1269 | the polling loop runs exactly the calls `Rounds` specifies, appends its writes to the store, and sets the job status and completion time from them |
| Monitor.MonitorSpec | main/main.go:1246-1292 | after a terminal status, artifacts are fetched only when there are sources and a destination, after the settle pause; a failed fetch records its message with no sync time; a successful one records its completion time |
| Monitor.SyncAfterJob | main/main.go:1271-1290 | the fetch after the job returns, appends and sets the sync time exactly as `AfterJob` gives, and leaves the job status and completion time alone |
| Monitor.MonitorExperiment | main/main.go:1246-1292 | `monitorExperiment` returns the result `MonitorSpec` specifies, and appends its writes; it updates the job status, the completion time and the last sync time |
| FetchCommand.WithPatterns | main/main.go:1221-1225 | every source keeps its path and gets the override patterns |
| FetchCommand.OverridePatterns | main/main.go:1221-1225 | the in-place override loop returns exactly `WithPatterns` |
| FetchCommand.Resolve | main/main.go:1190-1225 | errors come in the source's order; resolution succeeds exactly when the remote host is set, any `--remote-path` is absolute, a destination exists and a source exists; the destination and since-start flags override the recorded ones |
| FetchCommand.ResolveSources | main/main.go:1210-1225 | `--remote-path` replaces the recorded sources by one source; `--pattern` replaces every source's patterns |
| FetchCommand.ResolveFlags | main/main.go:1190-1225 | the step-by-step resolution returns exactly `Resolve` |
| FetchCommand.FetchCommandRecords | main/main.go:1227-1243 | a failed resolution runs and records nothing; a failed fetch records its message with no time; a successful dry run records nothing; any other success records its time; a dry run transfers nothing |
| FetchCommand.FetchPlanned | main/main.go:1227-1243 | after resolution, the fetch and the recorded sync return and append exactly what `Planned` gives |
| FetchCommand.CmdFetch | main/main.go:1190-1243 | `cmdFetch` returns the result and history of `FetchCommandSpec`, and appends its writes to the store |
| RunConfig.ProfileStep | main/main.go:694-735 | empty string fields, the config patterns and the artifact sources are filled from the profile; since-start and the poll interval are overwritten by the profile's setting unless flagged; the only failure is an unparsable interval, reported with "profile" and the profile's name |
| RunConfig.RunFileStep | main/main.go:755-802 | as for a profile, plus the uploaded script, the name and the build script; an interval error names the run file |
| RunConfig.Layered | main/main.go:670-805 | naming a profile without a config file, or one the file lacks, is an error; interval errors arise only when the flag was not given |
| RunConfig.Precedence | main/main.go:694-805 | a string field, the build script, the config patterns and the artifact sources take the first non-empty of flag, defaults, profile, run file; since-start and the poll interval take the flag, or else the last setting among defaults, profile and run file, or else the default |
| RunConfig.Checked | main/main.go:860-868 | the specification of the source validation loop; `CheckedMeaning` and `CheckedStops` state what it means |
| RunConfig.CheckedMeaning | main/main.go:860-868 | the validation loop accepts exactly the lists whose paths are all absolute, cleaning their patterns; otherwise it reports the first bad source, by 1-based position for an empty path |
| RunConfig.CheckedStops | main/main.go:860-866 | once a source is rejected, later sources are not looked at |
| RunConfig.ValidateSources | main/main.go:860-868 | the in-place validation loop returns exactly `Checked` |
| RunConfig.Required | main/main.go:807-821 | the first checks pass exactly when the remote host (flag or EXP_REMOTE), name, log directory and script are present, any artifact remote is absolute, and the artifact remote and destination come together unless sources are given; a failure is the first failing check's error, in that order; success gives the remote host |
| RunConfig.CombinedReadsBack | main/main.go:869-872 | the recorded pattern string reads back as the sources' cleaned patterns, or the run's own patterns when the sources have none |
| RunConfig.Prepare | main/main.go:807-885 | the specification of the checks after layering; `PrepareMeaning` states what an accepted plan guarantees |
| RunConfig.PrepareAccepts | main/main.go:807-868 | the checks after layering accept exactly the settings that pass the first checks and whose every source has an absolute path; otherwise the error is the first checks' or the source loop's |
| RunConfig.PrepareMeaning | main/main.go:807-876 | an accepted run has its required fields; its sources are absolute with clean patterns; a lone artifact remote becomes the one source; a destination always comes with a source; the record's artifact remote is the first source's path; "sources are required" never fires |
| RunConfig.Locals.FillFields | main/main.go:698-715 | fills exactly the six string locals that are empty |
| RunConfig.Locals.AdoptLists | main/main.go:716-723 | takes the normalized pattern list and the copied sources while the locals are empty |
| RunConfig.Locals.AdoptSinceStart | main/main.go:724-726 | takes the layer's since-start setting unless flagged |
| RunConfig.Locals.AdoptPoll | main/main.go:727-733 | takes the layer's interval unless flagged, or returns the parse error |
| RunConfig.Locals.ApplyProfile | main/main.go:694-735 | `applyProfile` leaves the locals as `ProfileStep` specifies, or returns its error |
| RunConfig.Locals.ApplyRunFile | main/main.go:755-802 | `applyRunFile` leaves the locals as `RunFileStep` specifies, or returns its error |
| RunConfig.Locals.AdoptEarly | main/main.go:682-687 | the profile and name are taken from the run file only where the flags left them empty |
| RunConfig.Locals.ApplyConfig | main/main.go:741-752 | `defaults`, then the named profile, which must exist, leave the locals and the error exactly as `ConfigLayer` gives |
| RunConfig.LayerSettings | main/main.go:670-805 | the layering on the locals returns exactly `Layered` |
| RunConfig.CheckRequired | main/main.go:807-821 | the first checks return exactly `Required` |
| RunConfig.SourcesFor | main/main.go:850-856 | the sources to check are exactly `SourcesOf` |
| RunConfig.AssemblePlan | main/main.go:869-885 | the combined pattern, primary remote, arguments and log template are exactly `Assemble`'s |
| RunConfig.PrepareRun | main/main.go:807-885 | the checks after layering return exactly `Prepare` |
| RunConfig.SettleRun | main/main.go:670-885 | `cmdRun` up to submission returns exactly `Settle` |
| Text.TrimSpace | main/main.go:1331 | `strings.TrimSpace` never lengthens, and leaves no white space at either end |
| Text.TrimSpaceBlank | main/main.go:1331-1332 | trimming gives "" exactly for blank text |
| Text.TrimSpaceUpper | main/main.go:1295 | trimming and upper-casing commute |
| Text.ToUpper | main/main.go:1295 | `strings.ToUpper` keeps the length and upper-cases a-z |
| Text.Fields | main/main.go:611 | every field is non-empty and free of white space |
| Text.FieldsEmpty | main/main.go:611-613 | there are no fields exactly for blank text |
| Text.Split | main/main.go:1335 | splitting yields at least one part, none containing the separator |
| Text.SplitJoin | main/main.go:1682 | splitting a join of separator-free parts gives the parts back |
| Text.JoinSplit | main/main.go:1674 | joining the parts of a split gives the text back |
| Text.IndexOfAfter | main/main.go:1351 | `strings.Index` finds the first occurrence |
| Text.TrimChar | main/main.go:1354 | `strings.Trim` leaves the character at neither end |
| Text.TrimPrefix | main/main.go:1538 | `strings.TrimPrefix` removes the prefix exactly when it is present |
| Text.TrimRightChar | main/main.go:1556 | `strings.TrimRight` removes only trailing copies of the character |
| Text.ReplaceAllAbsent | main/main.go:894 | replacing an absent pattern changes nothing |

## Left out

- **Persistence.** SQLite persistence is abstract: schema, migrations, `loadExperimentByID`, and the SQL of `updateExperimentStatus`/`recordArtifactSync`. The store is a log of writes. A failing write, which ends `monitorExperiment` and `cmdFetch` with that error, is not modelled.
- **Process results.** Process spawning (ssh, scp, rsync, git) is abstract. Each remote command is a recorded call whose result comes from `Env`. The text of Go's process errors is not part of the error messages (`Errors.Message`).
- **Remote steps of `cmdRun`.** Remote git information, script upload, the remote build script and `sbatch` submission inside `cmdRun` are foreign I/O and are not modelled. The build script and the upload run after the first checks and before the source checks (main/main.go:837-849), so in the source a relative source path is rejected only after that remote work has been done; `RunConfig.Prepare` runs the two groups of checks back to back. `submitSbatchSSH`'s output parsing is modelled (`Slurm.ParseSubmission`). The recording of the new experiment is not modelled.
- **The unreachable build-script check.** The check "build-script requires a remote host" in `cmdRun` is not modelled: the required-field check has already rejected an empty remote host.
- **Local destination paths.** `expandLocalPath`, `filepath.Abs` and `MkdirAll` are taken as the identity on the destination. The home-directory expansion and the errors of these calls are not modelled.
- **Output and argument parsing.** Printing, and `cmdList`/`cmdShow`, are output only. `flag.FlagSet` wiring and argument counts are library plumbing: the flags become a record. The "no experiment with id" error of `cmdFetch` comes from the database, so it is not modelled.
- **Reading configuration.** `loadConfig`, `loadRunConfigFile`, `configDir` and the YAML/JSON decoders, including the optional line-based YAML parser, are not modelled. The config file and the run file are records given to `RunConfig.Layered`. The YAML parser rests on `json.Marshal`/`Unmarshal` and `strconv.Unquote`.
- **Durations.** `time.ParseDuration` is the parameter `durations` of `RunConfig`, in whole seconds. The clock is `Env.clock`, in epoch seconds, with `Time.Unset` standing for Go's zero time. `time.Sleep` is a recorded `Sleep` call.
- **Regular expressions.** The regex engine is the pair of functions `Fetch.Regex`. The model has no nil entries in the compiled list, so the nil check of `patternMatches` is not modelled.
- Monitor.PollJob: the Go loop is unbounded; the model polls at most `polls` times (fuel), from a status oracle that is the environment. `Ending.PollsExhausted` is the model's outcome when the fuel runs out before a terminal status; it has no counterpart in the source.
- Monitor.MonitorExperiment: bounded by the same fuel as `Monitor.PollJob`.
- Errors.Message: `%q` quoting and wrapped errors (`%w`) are rendered without quotes or the inner error's text. The message for a profile requested without a config file (main/main.go:738) leaves out the `(expected …)` hint, which names the config directory the model does not have. The message of a failed listing (main/main.go:1522-1523) also leaves out the `Stderr:` line, because a `Remote.Run` carries one output stream.
- Paths.Join: does not apply `filepath.Clean`, so it keeps `//`, `.` and `..` elements that Go removes, and `Join("", b)` is `b` rather than `Clean(b)`. The model's paths differ from Go's only for unclean parts: a remote root such as `/data//out` makes `Fetch.FullPath` give `/data//out/a.json` where Go gives `/data/out/a.json`, which a pattern can then match differently; a log directory `./logs` makes `Slurm.LogTemplate` keep the `./`. Lexical cleaning is not modelled because it would not change any other property stated here.
- Text.ToUpper: upper-cases only the characters whose upper case is an ASCII letter (a-z, dotless i, long s) and leaves every other character as it is; this does not change any comparison with the ASCII state names.
- **Verification parameters.** `Fetch` and `Monitor` state their specifications for a parser `parse` of find output and for a status query, activity test and clock. The methods require, or are called with, the source's own functions (`Listing.ParseListing`, `Slurm.QueryJobStatus`, `Slurm.IsActiveStatus`); this keeps those definitions out of the proofs about loops. For the same reason `Fetch.TryWindow` builds a window's find script once and runs it on every try through `Listing.RunFind`, the half of `listRemoteFiles` after the script is built; each `listRemoteFiles` call of the source builds that same string again.
