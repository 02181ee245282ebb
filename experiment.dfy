/**
 * The experiment record the tracker keeps for each submitted job, and the store
 * it writes status and artifact-sync updates to, as a log of writes.
 */
module Experiments {
  import opened Text
  import opened Remote
  import opened Patterns

  /**
   * `Experiment`. The fields fixed when the experiment is recorded are constants;
   * the ones the monitor updates in place are variables.
   */
  class Experiment {
    const id: int
    const name: string
    const remote: string
    const scriptPath: string
    const args: string
    const jobId: string
    const logPath: string
    const createdAt: Time
    const artifactRemote: string
    const artifactDest: string
    const artifactSources: seq<Source>
    const artifactPattern: string
    const artifactSinceStart: bool
    var jobStatus: string
    var completedAt: Time
    var artifactLastSync: Time

    constructor (id: int, name: string, remote: string, scriptPath: string, args: string,
                 jobId: string, logPath: string, createdAt: Time,
                 artifactRemote: string, artifactDest: string, artifactSources: seq<Source>,
                 artifactPattern: string, artifactSinceStart: bool, jobStatus: string)
      ensures this.id == id && this.name == name && this.remote == remote
      ensures this.scriptPath == scriptPath && this.args == args
      ensures this.jobId == jobId && this.logPath == logPath && this.createdAt == createdAt
      ensures this.artifactRemote == artifactRemote && this.artifactDest == artifactDest
      ensures this.artifactSources == artifactSources && this.artifactPattern == artifactPattern
      ensures this.artifactSinceStart == artifactSinceStart && this.jobStatus == jobStatus
      ensures completedAt == Unset && artifactLastSync == Unset
    {
      this.id := id;
      this.name := name;
      this.remote := remote;
      this.scriptPath := scriptPath;
      this.args := args;
      this.jobId := jobId;
      this.logPath := logPath;
      this.createdAt := createdAt;
      this.artifactRemote := artifactRemote;
      this.artifactDest := artifactDest;
      this.artifactSources := artifactSources;
      this.artifactPattern := artifactPattern;
      this.artifactSinceStart := artifactSinceStart;
      this.jobStatus := jobStatus;
      completedAt := Unset;
      artifactLastSync := Unset;
    }

    /**
     * `EffectiveArtifactSources`: the recorded sources when there are any; otherwise
     * the single artifact remote with the stored patterns, or nothing without one.
     */
    function EffectiveArtifactSources(): (r: seq<Source>)
      ensures |artifactSources| > 0 ==> r == artifactSources
      ensures r == [] <==> |artifactSources| == 0 && artifactRemote == []
      ensures |artifactSources| == 0 ==> |r| <= 1
      ensures |r| == 1 && |artifactSources| == 0 ==>
        r[0].path == artifactRemote && forall i :: 0 <= i < |r[0].patterns| ==> Clean(r[0].patterns[i])
    {
      if |artifactSources| > 0 then artifactSources
      else if artifactRemote == [] then []
      else [Source(artifactRemote, PatternLines(artifactPattern))]
    }

    /**
     * The single-remote form reads the stored combined pattern back: an experiment
     * recorded with a cleaned list of newline-free patterns fetches with exactly that list.
     */
    lemma EffectiveSourcesRoundTrip(ps: seq<string>)
      requires |artifactSources| == 0 && artifactRemote != []
      requires forall i :: 0 <= i < |ps| ==> '\n' !in ps[i]
      requires artifactPattern == Join(Cleaned(ps), "\n")
      ensures EffectiveArtifactSources() == [Source(artifactRemote, Cleaned(ps))]
    {
      SplitCombine(ps);
    }
  }

  /** One update the tracker sends to the store. */
  datatype Write =
    | StatusWrite(id: int, status: string, completedAt: Time)  // `updateExperimentStatus`; Unset: no completion time
    | SyncWrite(id: int, syncedAt: Time, error: string)        // `recordArtifactSync`; Unset: no sync time

  /** The experiment store, seen as the log of the writes it has received. */
  class Store {
    var writes: seq<Write>

    constructor ()
      ensures writes == []
    {
      writes := [];
    }

    /** `updateExperimentStatus`: records the status, and the completion time when one is given. */
    method UpdateStatus(id: int, status: string, completedAt: Time)
      modifies this
      ensures writes == old(writes) + [StatusWrite(id, status, completedAt)]
    {
      writes := writes + [StatusWrite(id, status, completedAt)];
    }

    /** `recordArtifactSync`: records the sync time (Unset after a failure) and the error text. */
    method RecordArtifactSync(id: int, syncedAt: Time, error: string)
      modifies this
      ensures writes == old(writes) + [SyncWrite(id, syncedAt, error)]
    {
      writes := writes + [SyncWrite(id, syncedAt, error)];
    }
  }
}
