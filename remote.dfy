/**
 * Everything the tracker asks of the outside world, as data: the processes it runs
 * (ssh, rsync), the pauses it takes and the instants it reads from the clock.
 * An `Env` answers each process from the history of calls made so far, so a
 * scripted answer sequence (a job that shows up in squeue three times, a remote
 * `find` that is empty twice) is just one particular `Env`.
 */
module Remote {

  /** The outcome of one process: whether it exited cleanly, and the text the tracker reads from it. */
  datatype Run = Run(ok: bool, output: string)

  /** An effect the tracker performs. */
  datatype Call =
    | Ssh(argv: seq<string>)                  // `ssh argv...`
    | Rsync(argv: seq<string>, stdin: string) // `rsync argv...` fed from standard input
    | Sleep(seconds: int)                     // `time.Sleep`

  /**
   * The world: `respond(h)` is the outcome of the last call of history `h`;
   * `clock(h)` is the UTC instant, in epoch seconds, read right after the calls of `h`.
   */
  datatype Env = Env(respond: seq<Call> -> Run, clock: seq<Call> -> int)

  /** A `time.Time` as the tracker stores it: Go's zero time, or an instant in epoch seconds. */
  datatype Time = Unset | At(seconds: int)

  /** A history in which nothing was transferred. */
  predicate NoTransfer(h: seq<Call>) {
    forall i :: 0 <= i < |h| ==> !h[i].Rsync?
  }

  /** Two stretches without transfers, one after the other, make one. */
  lemma NoTransferExtend(h0: seq<Call>, h1: seq<Call>, h2: seq<Call>)
    requires h0 <= h1 <= h2
    requires NoTransfer(h1[|h0|..]) && NoTransfer(h2[|h1|..])
    ensures NoTransfer(h2[|h0|..])
  {
    forall i | 0 <= i < |h2| - |h0|
      ensures !h2[|h0|..][i].Rsync?
    {
      if |h0| + i < |h1| {
        assert h2[|h0|..][i] == h1[|h0|..][i];
      } else {
        assert h2[|h0|..][i] == h2[|h1|..][|h0| + i - |h1|];
      }
    }
  }
}
