/**
 * The tracker's error conditions, one constructor per place that reports one, and the
 * message each produces (what `recordArtifactSync` stores as the last artifact error).
 */
module Errors {
  import opened Text

  datatype Err =
    // remote job control
    | SbatchFailed(output: string)
    | SbatchUnparsable(output: string)
    | SqueueFailed(output: string)
    | SacctFailed(output: string)
    // artifact discovery and transfer
    | RemotePathRequired
    | RemotePathNotAbsolute
    | DestinationRequired
    | NoStartTime(id: int)
    | FindFailed(command: string, stdout: string)
    | CompileFailed(pattern: string)
    | RsyncFailed
    | SourceEmptyPath
    // the fetch command
    | EmptyRemoteHost(idText: string)
    | FetchPathNotAbsolute
    | FetchDestinationMissing(idText: string)
    | NoSourcesRecorded(idText: string)
    // the run command
    | ProfileWithoutConfig(profile: string)
    | ProfileNotFound(profile: string, configPath: string)
    | InvalidPollInterval(value: string, source: string)
    | RequiredMissing
    | ArtifactRemoteNotAbsolute
    | ArtifactPairIncomplete
    | SourcesRequired
    | RunSourceEmptyPath(index: int)
    | RunSourceNotAbsolute(path: string)

  /** `err.Error()`; the text of the underlying process error is not modelled. */
  function Message(e: Err): string {
    match e
    case SbatchFailed(out) => "ssh/sbatch failed: \nOutput: " + out
    case SbatchUnparsable(out) => "unable to parse sbatch output: " + out
    case SqueueFailed(out) => "squeue:  (output: " + TrimSpace(out) + ")"
    case SacctFailed(out) => "sacct:  (output: " + TrimSpace(out) + ")"
    case RemotePathRequired => "remote-path is required"
    case RemotePathNotAbsolute => "remote-path must be absolute so rsync can address the files precisely"
    case DestinationRequired => "destination directory is required"
    case NoStartTime(id) =>
      "experiment " + Decimal(id) + " does not have a recorded start time, cannot apply since-start filter"
    case FindFailed(cmd, out) => "remote find failed: \nCommand: " + cmd + "\nStdout: " + TrimSpace(out)
    case CompileFailed(p) => "compile pattern " + p
    case RsyncFailed => "rsync failed"
    case SourceEmptyPath => "artifact source has empty path"
    case EmptyRemoteHost(id) => "experiment " + id + " has empty remote host"
    case FetchPathNotAbsolute => "remote-path must be absolute so rsync can address files precisely"
    case FetchDestinationMissing(id) =>
      "dest is required and no artifact destination is recorded for experiment " + id
    case NoSourcesRecorded(id) => "no artifact sources recorded for experiment " + id + "; use --remote-path"
    case ProfileWithoutConfig(p) => "profile " + p + " requested but no config file found"
    case ProfileNotFound(p, path) => "profile " + p + " not found in " + path
    case InvalidPollInterval(v, src) => "invalid poll_interval " + v + " in " + src
    case RequiredMissing => "remote, name, log-dir, and script are required (or set EXP_REMOTE)"
    case ArtifactRemoteNotAbsolute => "artifact-remote must be an absolute path on the remote host"
    case ArtifactPairIncomplete =>
      "artifact-remote and artifact-dest must be provided together (or specify artifact-sources)"
    case SourcesRequired => "artifact sources are required when artifact-dest is set"
    case RunSourceEmptyPath(i) => "artifact source " + Decimal(i) + " has empty path"
    case RunSourceNotAbsolute(p) => "artifact source path " + p + " must be absolute"
  }
}
