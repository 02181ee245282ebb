/**
 * `monitorExperiment`: poll the job's state until it is no longer active, recording
 * every state read and the completion time, then fetch the experiment's artifacts
 * once and record the outcome of that sync.
 *
 * The source loops until the job finishes; here the number of status queries is
 * bounded by `polls`, and a monitor that runs out of queries ends without fetching.
 */
module Monitor {
  import opened Wrappers
  import opened Remote
  import opened Errors
  import opened Slurm
  import opened Fetch
  import opened Experiments

  /** `artifactSettleDelay`: the pause between the job finishing and the fetch. */
  const SettleSeconds: int := 10

  // ---------------------------------------------------------------------------
  // Polling

  /**
   * The polling loop after some queries: the history, the store writes, the last
   * state read (the new `JobStatus`) and the completion time (Unset while the job
   * has not been seen to finish).
   */
  datatype Polled = Polled(history: seq<Call>, writes: seq<Write>, last: Option<string>, completed: Time)

  /**
   * The polling loop of `monitorExperiment` over a given status lookup and test of
   * whether a state is still active, for at most `polls` lookups. A failed lookup is
   * followed by a pause and changes nothing; a state read is written, and an active
   * one is followed by a pause; the first inactive one is written again with the
   * completion time, and ends the loop.
   */
  function Rounds(query: seq<Call> -> Query, active: string -> bool, clock: seq<Call> -> int,
                  h: seq<Call>, id: int, interval: int, polls: nat): Polled
    decreases polls
  {
    if polls == 0 then Polled(h, [], None, Unset)
    else
      var q := query(h);
      match q.status
      case Failure(_) => Rounds(query, active, clock, q.history + [Sleep(interval)], id, interval, polls - 1)
      case Success(s) =>
        if !active(s) then
          var now := clock(q.history);
          Polled(q.history, [StatusWrite(id, s, Unset), StatusWrite(id, s, At(now))], Some(s), At(now))
        else
          Resume([StatusWrite(id, s, Unset)], Some(s),
                 Rounds(query, active, clock, q.history + [Sleep(interval)], id, interval, polls - 1))
  }

  /** `queryJobStatus` for one job, as a lookup from the history so far. */
  function StatusQuery(env: Env, remote: string, jobId: string): seq<Call> -> Query {
    (hh: seq<Call>) => QueryJobStatus(env, hh, remote, jobId)
  }

  /** The polling loop of `monitorExperiment` for the job `jobId` on `remote`, with `isActiveStatus`. */
  function Poll(env: Env, h: seq<Call>, id: int, remote: string, jobId: string, interval: int, polls: nat): Polled {
    Rounds(StatusQuery(env, remote, jobId), IsActiveStatus, env.clock, h, id, interval, polls)
  }

  /** A rest of the loop, preceded by writes `ws` after which the last state read was `last`. */
  function Resume(ws: seq<Write>, last: Option<string>, p: Polled): Polled {
    Polled(p.history, ws + p.writes, if p.last.Some? then p.last else last, p.completed)
  }

  /** A write of a state the job has not finished in, without a completion time. */
  predicate Pending(active: string -> bool, id: int, w: Write) {
    w.StatusWrite? && w.id == id && w.completedAt == Unset && active(w.status)
  }

  /**
   * What polling writes: a run of active states, each without a completion time;
   * when the job is seen to finish, its final state twice, the second time with the
   * completion time; the job finished exactly when the last state read is not active.
   */
  lemma {:induction false} PollWrites(query: seq<Call> -> Query, active: string -> bool, clock: seq<Call> -> int,
                                      h: seq<Call>, id: int, interval: int, polls: nat)
    requires forall hh :: hh <= query(hh).history
    ensures var p := Rounds(query, active, clock, h, id, interval, polls);
      var n := |p.writes|;
      && h <= p.history
      && (p.completed.At? <==> p.last.Some? && !active(p.last.value))
      && (p.completed.At? ==>
            && n >= 2
            && p.writes[n - 2] == StatusWrite(id, p.last.value, Unset)
            && p.writes[n - 1] == StatusWrite(id, p.last.value, p.completed)
            && forall i :: 0 <= i < n - 2 ==> Pending(active, id, p.writes[i]))
      && (p.completed == Unset ==>
            && (forall i :: 0 <= i < n ==> Pending(active, id, p.writes[i]))
            && (p.last.Some? <==> n > 0)
            && (n > 0 ==> p.last == Some(p.writes[n - 1].status)))
    decreases polls
  {
    if polls > 0 {
      var q := query(h);
      var h1 := q.history + [Sleep(interval)];
      if q.status.Failure? {
        PollWrites(query, active, clock, h1, id, interval, polls - 1);
      } else if active(q.status.value) {
        var w := StatusWrite(id, q.status.value, Unset);
        var rest := Rounds(query, active, clock, h1, id, interval, polls - 1);
        PollWrites(query, active, clock, h1, id, interval, polls - 1);
        var ws := [w] + rest.writes;
        assert forall i :: 0 < i < |ws| ==> ws[i] == rest.writes[i - 1];
        assert Pending(active, id, ws[0]);
      }
    }
  }

  /** The status lookup only extends the history. */
  lemma StatusQueryGrows(env: Env, remote: string, jobId: string)
    ensures forall hh :: hh <= StatusQuery(env, remote, jobId)(hh).history
  {
    forall hh ensures hh <= StatusQuery(env, remote, jobId)(hh).history {
      var q := QueryJobStatus(env, hh, remote, jobId);
    }
  }

  /** `n` rounds of one call that fails and the pause after it. */
  function Unanswered(c: Call, interval: int, n: nat): seq<Call> {
    if n == 0 then [] else [c, Sleep(interval)] + Unanswered(c, interval, n - 1)
  }

  /** A lookup that always fails after one call: nothing is written and nothing finishes. */
  lemma {:induction false} RoundsUnanswered(query: seq<Call> -> Query, active: string -> bool, clock: seq<Call> -> int,
                                            c: Call, h: seq<Call>, id: int, interval: int, polls: nat)
    requires forall hh :: query(hh).status.Failure? && query(hh).history == hh + [c]
    ensures Rounds(query, active, clock, h, id, interval, polls)
         == Polled(h + Unanswered(c, interval, polls), [], None, Unset)
    decreases polls
  {
    if polls > 0 {
      var h1 := h + [c];
      assert query(h).history == h1;
      RoundsUnanswered(query, active, clock, c, h1 + [Sleep(interval)], id, interval, polls - 1);
      assert h1 + [Sleep(interval)] + Unanswered(c, interval, polls - 1) == h + Unanswered(c, interval, polls);
    }
  }

  /**
   * A cluster that never answers: every squeue fails, so nothing is written, the
   * state and the completion time stay as they were, and every round is one squeue
   * and one pause.
   */
  lemma PollUnanswered(env: Env, h: seq<Call>, id: int, remote: string, jobId: string, interval: int, polls: nat)
    requires jobId != []
    requires forall hh :: !env.respond(hh).ok
    ensures Poll(env, h, id, remote, jobId, interval, polls)
         == Polled(h + Unanswered(SqueueCall(remote, jobId), interval, polls), [], None, Unset)
  {
    var query := StatusQuery(env, remote, jobId);
    forall hh ensures query(hh).status.Failure? && query(hh).history == hh + [SqueueCall(remote, jobId)] {
      QueryJobStatusCases(env, hh, remote, jobId);
    }
    RoundsUnanswered(query, IsActiveStatus, env.clock, SqueueCall(remote, jobId), h, id, interval, polls);
  }

  /** A job without an id reads as UNKNOWN, which is final: the first round finishes it without running anything. */
  lemma PollWithoutJob(env: Env, h: seq<Call>, id: int, remote: string, interval: int, polls: nat)
    requires polls > 0
    ensures var now := env.clock(h);
      Poll(env, h, id, remote, [], interval, polls)
        == Polled(h, [StatusWrite(id, "UNKNOWN", Unset), StatusWrite(id, "UNKNOWN", At(now))], Some("UNKNOWN"), At(now))
  {
    UnknownTerminal();
  }

  /** One round of the loop, after writes `ws` that left `last` as the state read. */
  lemma RoundsStep(query: seq<Call> -> Query, active: string -> bool, clock: seq<Call> -> int,
                   ws: seq<Write>, last: Option<string>, h: seq<Call>, id: int, interval: int, n: nat)
    requires n > 0
    ensures var q := query(h);
      var p := Resume(ws, last, Rounds(query, active, clock, h, id, interval, n));
      var rest := Rounds(query, active, clock, q.history + [Sleep(interval)], id, interval, n - 1);
      && (q.status.Failure? ==> p == Resume(ws, last, rest))
      && (q.status.Success? && active(q.status.value) ==>
            p == Resume(ws + [StatusWrite(id, q.status.value, Unset)], Some(q.status.value), rest))
      && (q.status.Success? && !active(q.status.value) ==>
            var now := clock(q.history);
            p == Polled(q.history, ws + [StatusWrite(id, q.status.value, Unset), StatusWrite(id, q.status.value, At(now))],
                        Some(q.status.value), At(now)))
  {
    var q := query(h);
    if q.status.Success? && active(q.status.value) {
      var rest := Rounds(query, active, clock, q.history + [Sleep(interval)], id, interval, n - 1);
      assert ws + ([StatusWrite(id, q.status.value, Unset)] + rest.writes)
          == ws + [StatusWrite(id, q.status.value, Unset)] + rest.writes;
    }
  }

  /**
   * The polling loop of `monitorExperiment` with a given status lookup and state
   * test: the job's state and completion time are updated in place and each update
   * is written to the store. `finished` says whether the job was seen to finish
   * within `polls` lookups.
   */
  method PollJob(env: Env, query: seq<Call> -> Query, active: string -> bool, h: seq<Call>,
                 exp: Experiment, store: Store, interval: int, polls: nat)
    returns (hist: seq<Call>, finished: bool)
    modifies exp, store
    ensures var p := Rounds(query, active, env.clock, h, exp.id, interval, polls);
      && hist == p.history && finished == p.completed.At?
      && store.writes == old(store.writes) + p.writes
      && exp.jobStatus == (if p.last.Some? then p.last.value else old(exp.jobStatus))
      && exp.completedAt == (if p.completed.At? then p.completed else old(exp.completedAt))
      && exp.artifactLastSync == old(exp.artifactLastSync)
  {
    ghost var written: seq<Write> := [];
    ghost var last: Option<string> := None;
    hist := h;
    var n := polls;
    while n > 0
      invariant Rounds(query, active, env.clock, h, exp.id, interval, polls)
             == Resume(written, last, Rounds(query, active, env.clock, hist, exp.id, interval, n))
      invariant store.writes == old(store.writes) + written
      invariant exp.jobStatus == (if last.Some? then last.value else old(exp.jobStatus))
      invariant exp.completedAt == old(exp.completedAt)
      invariant exp.artifactLastSync == old(exp.artifactLastSync)
    {
      var q := query(hist);
      RoundsStep(query, active, env.clock, written, last, hist, exp.id, interval, n);
      if q.status.Failure? {
        hist := q.history + [Sleep(interval)];
        n := n - 1;
        continue;
      }
      var status := q.status.value;
      exp.jobStatus := status;
      store.UpdateStatus(exp.id, status, Unset);
      written, last := written + [StatusWrite(exp.id, status, Unset)], Some(status);
      if !active(status) {
        var now := env.clock(q.history);
        exp.completedAt := At(now);
        store.UpdateStatus(exp.id, status, At(now));
        return q.history, true;
      }
      hist := q.history + [Sleep(interval)];
      n := n - 1;
    }
    return hist, false;
  }

  // ---------------------------------------------------------------------------
  // The fetch after the job

  /** How a monitor that did not fail ended. */
  datatype Ending =
    | PollsExhausted                   // the job was not seen to finish within the queries allowed
    | NoArtifacts                      // the job finished; no sources or no destination: nothing fetched
    | Synced(outcomes: seq<Outcome>)   // the job finished and every source was fetched

  /** A monitor run: its outcome, the history, the writes, and the experiment's new state and sync time. */
  datatype Monitored = Monitored(result: Result<Ending, Err>, history: seq<Call>, writes: seq<Write>,
                                 last: Option<string>, completed: Time, synced: Time)

  /** Whether a finished job's artifacts are fetched: it has sources and a destination. */
  predicate FetchesArtifacts(exp: Experiment) {
    |exp.EffectiveArtifactSources()| > 0 && exp.artifactDest != []
  }

  /**
   * `monitorExperiment`: polling, then, when the job finished and has sources and a
   * destination, a pause and one fetch of every source into the recorded destination
   * (never a dry run). A failed fetch is recorded with no sync time and its message,
   * and is the monitor's error; a fetch that succeeds is recorded with its time.
   */
  function MonitorSpec(env: Env, parse: string -> seq<string>, rx: Regex, h: seq<Call>, exp: Experiment,
                       interval: int, polls: nat): (m: Monitored)
    ensures var p := Poll(env, h, exp.id, exp.remote, exp.jobId, interval, polls);
      var fetches := p.completed.At? && FetchesArtifacts(exp);
      && p.history <= m.history && p.writes <= m.writes
      && m.last == p.last && m.completed == p.completed
      && (!fetches ==> m.history == p.history && m.writes == p.writes && m.synced == Unset
                       && m.result == Success(if p.completed.At? then NoArtifacts else PollsExhausted))
      && (fetches ==>
            var b := FetchSources(env, parse, rx, p.history + [Sleep(SettleSeconds)], exp,
                                  exp.EffectiveArtifactSources(), exp.artifactDest, exp.artifactSinceStart, false);
            && m.history == b.history
            && |m.writes| == |p.writes| + 1
            && (b.result.Failure? ==>
                  m.result == Failure(b.result.error) && m.synced == Unset
                  && m.writes[|p.writes|] == SyncWrite(exp.id, Unset, Message(b.result.error)))
            && (b.result.Success? ==>
                  m.result == Success(Synced(b.result.value)) && m.synced == At(env.clock(b.history))
                  && m.writes[|p.writes|] == SyncWrite(exp.id, m.synced, "")))
  {
    var p := Poll(env, h, exp.id, exp.remote, exp.jobId, interval, polls);
    if !p.completed.At? then Monitored(Success(PollsExhausted), p.history, p.writes, p.last, p.completed, Unset)
    else
      var s := AfterJob(env, parse, rx, p.history, exp);
      Monitored(s.result, s.history, p.writes + s.writes, p.last, p.completed, s.synced)
  }

  /** What the monitor does once the job has finished: its outcome, the history, its writes and the sync time. */
  datatype Sync = Sync(result: Result<Ending, Err>, history: seq<Call>, writes: seq<Write>, synced: Time)

  /**
   * The part of `monitorExperiment` after the job finished, from history `h`: nothing
   * without sources or a destination; otherwise a pause, one fetch of every source, and
   * the recorded sync.
   */
  function AfterJob(env: Env, parse: string -> seq<string>, rx: Regex, h: seq<Call>, exp: Experiment): (s: Sync)
    ensures h <= s.history
  {
    if !FetchesArtifacts(exp) then Sync(Success(NoArtifacts), h, [], Unset)
    else
      var h1 := h + [Sleep(SettleSeconds)];
      FetchSourcesShape(env, parse, rx, h1, exp, exp.EffectiveArtifactSources(), exp.artifactDest,
                        exp.artifactSinceStart, false);
      var b := FetchSources(env, parse, rx, h1, exp, exp.EffectiveArtifactSources(), exp.artifactDest,
                            exp.artifactSinceStart, false);
      match b.result
      case Failure(e) => Sync(Failure(e), b.history, [SyncWrite(exp.id, Unset, Message(e))], Unset)
      case Success(outs) =>
        var now := env.clock(b.history);
        Sync(Success(Synced(outs)), b.history, [SyncWrite(exp.id, At(now), "")], At(now))
  }

  /**
   * `monitorExperiment`. The store's writes, the experiment's state, completion time
   * and sync time, and the calls made, are those of `MonitorSpec`.
   */
  method MonitorExperiment(env: Env, ghost parse: string -> seq<string>, rx: Regex, h: seq<Call>,
                           exp: Experiment, store: Store, interval: int, polls: nat)
    returns (r: Result<Ending, Err>, hist: seq<Call>)
    requires ReadsListing(parse)
    modifies exp, store
    ensures var m := MonitorSpec(env, parse, rx, h, exp, interval, polls);
      && r == m.result && hist == m.history
      && store.writes == old(store.writes) + m.writes
      && exp.jobStatus == (if m.last.Some? then m.last.value else old(exp.jobStatus))
      && exp.completedAt == (if m.completed.At? then m.completed else old(exp.completedAt))
      && exp.artifactLastSync == (if m.synced.At? then m.synced else old(exp.artifactLastSync))
  {
    var finished;
    hist, finished := PollJob(env, StatusQuery(env, exp.remote, exp.jobId), IsActiveStatus, h, exp, store, interval, polls);
    if !finished {
      return Success(PollsExhausted), hist;
    }
    r, hist := SyncAfterJob(env, parse, rx, hist, exp, store);
  }

  /** The fetch `monitorExperiment` makes once the job finished, and the sync it records. */
  method SyncAfterJob(env: Env, ghost parse: string -> seq<string>, rx: Regex, h: seq<Call>, exp: Experiment, store: Store)
    returns (r: Result<Ending, Err>, hist: seq<Call>)
    requires ReadsListing(parse)
    modifies exp, store
    ensures var s := AfterJob(env, parse, rx, h, exp);
      && r == s.result && hist == s.history
      && store.writes == old(store.writes) + s.writes
      && exp.jobStatus == old(exp.jobStatus) && exp.completedAt == old(exp.completedAt)
      && exp.artifactLastSync == (if s.synced.At? then s.synced else old(exp.artifactLastSync))
  {
    var sources := exp.EffectiveArtifactSources();
    if |sources| > 0 && exp.artifactDest != [] {
      var b := FetchArtifactSources(env, parse, rx, h + [Sleep(SettleSeconds)], exp, sources,
                                    exp.artifactDest, exp.artifactSinceStart, false);
      if b.result.Failure? {
        store.RecordArtifactSync(exp.id, Unset, Message(b.result.error));
        return Failure(b.result.error), b.history;
      }
      var now := env.clock(b.history);
      exp.artifactLastSync := At(now);
      store.RecordArtifactSync(exp.id, At(now), "");
      return Success(Synced(b.result.value)), b.history;
    }
    return Success(NoArtifacts), h;
  }
}
