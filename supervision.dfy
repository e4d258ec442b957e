/** The decision logic of the job monitor, as functions over its state.

    The monitor polls the job's process; on every poll at which the
    checkpoint interval has elapsed it writes a "still running" update into
    the job store (unless the stored job was already killed) and enforces
    the stdout quota. When the process has exited it reconciles the final
    status with the store. The clock, the process, the file system, the kill
    call and the store's failures are all inputs here.
 */
module Supervision {
  import opened Jobs

  /** Minimum time between two checkpoints (JobMonitor.java:65). */
  const JOB_UPDATE_TIME_MS: int := 60000

  /** The exit code of a successful job process. */
  const SUCCESS_CODE: int := 0

  const RUNNING_MSG: string := "Job is running"
  const SUCCESS_MSG: string := "Job finished successfully"
  const FAILURE_PREFIX: string := "Failed to execute job, Error Message: "
  const STDERR_HINT: string := "Please look at job's stderr for more details"

  /** The job store, keyed by job id. */
  type Store = map<string, Job>

  /** How the job store behaves during one reconciliation: it may fail
      when the stored job is read or when the local job is written. */
  datatype StoreHealth = Healthy | ReadFails | WriteFails

  /** The node statistics the monitor bumps. */
  datatype Counters = Counters(failedJobs: nat, successfulJobs: nat, successfulEmails: nat, failedEmails: nat)

  /** What the monitor is configured with at construction: whether a
      working directory (and so a stdout file) is known, and the optional
      stdout size limit. */
  datatype Env = Env(stdoutSet: bool, maxStdoutSize: Option<int>)

  /** The monitor's own fields together with the store and the counters. */
  datatype MonitorState = MonitorState(
    lastUpdatedTimeMS: int,
    terminated: bool,
    job: Job,
    store: Store,
    stats: Counters)

  /** One iteration of the poll loop, while the process is still running.
      `now` is the clock read that decides whether the checkpoint is due and
      `stamp` the one recorded when it fires; `externalKill` says that
      another actor wrote KILLED into the store since the previous poll. */
  datatype Tick = Tick(
    now: int,
    stamp: int,
    externalKill: bool,
    stdoutExists: bool,
    stdoutLength: int,
    killSucceeds: bool,
    health: StoreHealth)

  /** What one poll did: whether the checkpoint fired, whether the kill was
      called, and whether that call succeeded. */
  datatype Event = Event(fired: bool, killInvoked: bool, killSucceeded: bool)

  datatype StepResult = StepResult(state: MonitorState, event: Event)

  datatype RunResult = RunResult(state: MonitorState, log: seq<Event>)

  /** How terminal reconciliation ended: the final status was written, it
      was withheld because the stored job is killed (or has no status), or
      the store failed and the failure escaped. */
  datatype Outcome = Applied | Deferred | StoreError

  datatype TerminalResult = TerminalResult(state: MonitorState, outcome: Outcome)

  datatype Verdict = Verdict(status: JobStatus, message: string)

  // ---------------------------------------------------------------------
  // Checkpoint cadence and the store guard

  /** Whether the checkpoint interval has elapsed since the last update. */
  predicate ShouldUpdateJob(now: int, lastUpdatedTimeMS: int) {
    now - lastUpdatedTimeMS >= JOB_UPDATE_TIME_MS
  }

  /** The guard of both reconciliations: the monitor may overwrite the
      stored job only when its status is set and is not KILLED. */
  predicate MayOverwrite(stored: Option<JobStatus>) {
    stored.Some? && stored.value != Killed
  }

  /** Periodic reconciliation: read the stored job and write the local one
      over it unless the guard forbids it; a failure of the store (including
      a job missing from it) is swallowed and nothing is written. */
  function PeriodicWrite(store: Store, job: Job, health: StoreHealth): (r: Store)
    ensures r == store || r == store[job.id := job]
    ensures job.id in store && !MayOverwrite(store[job.id].status) ==> r == store
    ensures health != Healthy || job.id !in store ==> r == store
    ensures health == Healthy && job.id in store && MayOverwrite(store[job.id].status) ==> r == store[job.id := job]
  {
    if health == Healthy && job.id in store && MayOverwrite(store[job.id].status) then
      store[job.id := job]
    else
      store
  }

  /** A write by the kill path of another actor: the stored job becomes KILLED. */
  function ExternalKill(store: Store, id: string): Store {
    if id in store then store[id := store[id].(status := Some(Killed))] else store
  }

  // ---------------------------------------------------------------------
  // Stdout quota

  /** The quota is exceeded when the stdout file is known and exists, a
      limit is configured, and the file is strictly longer than the limit. */
  predicate OverQuota(env: Env, stdoutExists: bool, stdoutLength: int) {
    env.stdoutSet && stdoutExists && env.maxStdoutSize.Some? && stdoutLength > env.maxStdoutSize.value
  }

  // ---------------------------------------------------------------------
  // One poll

  /** The body of the poll loop after the sleep: the checkpoint branch. */
  function CheckpointStep(s: MonitorState, t: Tick, env: Env): (r: StepResult)
    ensures r.event.fired <==> t.now - s.lastUpdatedTimeMS >= JOB_UPDATE_TIME_MS
    ensures !r.event.fired ==> r.state == s && !r.event.killInvoked && !r.event.killSucceeded
    ensures r.event.fired ==>
      r.state.lastUpdatedTimeMS == t.stamp &&
      r.state.job == s.job.(status := Some(Running), statusMsg := Some(RUNNING_MSG), updateTime := t.stamp) &&
      r.state.store == PeriodicWrite(s.store, r.state.job, t.health)
    ensures r.event.killInvoked <==> r.event.fired && OverQuota(env, t.stdoutExists, t.stdoutLength) && !s.terminated
    ensures r.event.killSucceeded <==> r.event.killInvoked && t.killSucceeds
    ensures r.state.terminated <==> s.terminated || r.event.killSucceeded
    ensures r.state.job.id == s.job.id && r.state.stats == s.stats
  {
    if !ShouldUpdateJob(t.now, s.lastUpdatedTimeMS) then
      StepResult(s, Event(false, false, false))
    else
      var job := s.job.(status := Some(Running), statusMsg := Some(RUNNING_MSG), updateTime := t.stamp);
      var store := PeriodicWrite(s.store, job, t.health);
      var invoke := OverQuota(env, t.stdoutExists, t.stdoutLength) && !s.terminated;
      var killed := invoke && t.killSucceeds;
      StepResult(MonitorState(t.stamp, s.terminated || killed, job, store, s.stats), Event(true, invoke, killed))
  }

  /** One poll: an external kill may land first, then the checkpoint branch runs. */
  function Poll(s: MonitorState, t: Tick, env: Env): StepResult {
    CheckpointStep(if t.externalKill then s.(store := ExternalKill(s.store, s.job.id)) else s, t, env)
  }

  /** The poll loop over the polls made while the process runs. */
  function RunTicks(s: MonitorState, ticks: seq<Tick>, env: Env): (r: RunResult)
    ensures |r.log| == |ticks|
    ensures r.state.job.id == s.job.id && r.state.stats == s.stats
    ensures r.state.job.name == s.job.name && r.state.job.userEmail == s.job.userEmail
    decreases |ticks|
  {
    if ticks == [] then
      RunResult(s, [])
    else
      var step := Poll(s, ticks[0], env);
      var rest := RunTicks(step.state, ticks[1..], env);
      RunResult(rest.state, [step.event] + rest.log)
  }

  /** The number of successful kills in a log of polls. */
  function CountKills(log: seq<Event>): nat {
    if log == [] then 0 else (if log[0].killSucceeded then 1 else 0) + CountKills(log[1..])
  }

  // ---------------------------------------------------------------------
  // Terminal reconciliation

  /** The explanation for a failed exit: the lookup's text, or the stderr
      hint when the lookup gives nothing or an empty string. */
  function FailureDetail(lookup: Option<string>): (r: string)
    ensures r != []
    ensures lookup.Some? && lookup.value != [] ==> r == lookup.value
    ensures lookup.None? || lookup.value == [] ==> r == STDERR_HINT
  {
    if lookup.None? || lookup.value == [] then STDERR_HINT else lookup.value
  }

  /** The status and message the monitor computes from the exit code. */
  function JobVerdict(exitCode: int, lookup: Option<string>): (v: Verdict)
    ensures IsTerminal(v.status) && v.status != Killed
    ensures v.status == Succeeded <==> exitCode == SUCCESS_CODE
    ensures v.status == Succeeded ==> v.message == SUCCESS_MSG
    ensures v.status == Failed ==> v.message == FAILURE_PREFIX + FailureDetail(lookup)
  {
    if exitCode != SUCCESS_CODE then
      Verdict(Failed, FAILURE_PREFIX + FailureDetail(lookup))
    else
      Verdict(Succeeded, SUCCESS_MSG)
  }

  /** The counters after one finished job with the given status. */
  function Tally(c: Counters, status: JobStatus): Counters {
    if status == Succeeded then c.(successfulJobs := c.successfulJobs + 1)
    else c.(failedJobs := c.failedJobs + 1)
  }

  /** The job as the applied branch leaves it: final status and message,
      and the archive location unless log archival is disabled. */
  function Finished(job: Job, v: Verdict, archiveUri: Option<string>): Job {
    job.(status := Some(v.status), statusMsg := Some(v.message),
         archiveLocation := if !job.disableLogArchival then archiveUri else job.archiveLocation)
  }

  /** Terminal reconciliation after the process exited with `exitCode`.
      `lookup` is the known explanation for that exit code and `archiveUri`
      the archive location derived from the job id; either may be null. */
  function TerminalStep(s: MonitorState, exitCode: int, lookup: Option<string>, archiveUri: Option<string>,
                        health: StoreHealth): (r: TerminalResult)
    ensures r.state.lastUpdatedTimeMS == s.lastUpdatedTimeMS && r.state.terminated == s.terminated
    ensures r.state.job.id == s.job.id && r.state.job.exitCode == Some(exitCode)
    ensures r.outcome == Applied <==>
      health == Healthy && s.job.id in s.store && MayOverwrite(s.store[s.job.id].status)
    ensures r.outcome == Deferred <==>
      health != ReadFails && s.job.id in s.store && !MayOverwrite(s.store[s.job.id].status)
    ensures r.outcome != Applied ==> r.state.store == s.store
    ensures r.outcome == Applied ==> r.state.store == s.store[s.job.id := r.state.job]
    ensures health != ReadFails && s.job.id in s.store && MayOverwrite(s.store[s.job.id].status) ==>
      var v := JobVerdict(exitCode, lookup);
      r.state.job == Finished(s.job.(exitCode := Some(exitCode)), v, archiveUri) &&
      r.state.stats == Tally(s.stats, v.status)
    ensures r.outcome == Deferred || health == ReadFails || s.job.id !in s.store ==>
      r.state.job == s.job.(exitCode := Some(exitCode)) && r.state.stats == s.stats
  {
    var job := s.job.(exitCode := Some(exitCode));
    if health == ReadFails || job.id !in s.store then
      TerminalResult(s.(job := job), StoreError)
    else if !MayOverwrite(s.store[job.id].status) then
      TerminalResult(s.(job := job), Deferred)
    else
      var v := JobVerdict(exitCode, lookup);
      var done := Finished(job, v, archiveUri);
      var stats := Tally(s.stats, v.status);
      if health == WriteFails then
        TerminalResult(s.(job := done, stats := stats), StoreError)
      else
        assert health == Healthy;
        TerminalResult(s.(job := done, store := s.store[job.id := done], stats := stats), Applied)
  }

  // ---------------------------------------------------------------------
  // Properties

  /** A reconciliation that is applied counts exactly one finished job, as
      succeeded or as failed according to the exit code; any other outcome
      but a failed write counts nothing. */
  lemma TerminalCountsOnce(s: MonitorState, exitCode: int, lookup: Option<string>, archiveUri: Option<string>,
                           health: StoreHealth)
    ensures var r := TerminalStep(s, exitCode, lookup, archiveUri, health);
      (r.outcome == Applied ==>
        r.state.stats.failedJobs + r.state.stats.successfulJobs == s.stats.failedJobs + s.stats.successfulJobs + 1 &&
        (r.state.stats.successfulJobs == s.stats.successfulJobs + 1 <==> exitCode == SUCCESS_CODE) &&
        r.state.stats == if exitCode == SUCCESS_CODE
                         then s.stats.(successfulJobs := s.stats.successfulJobs + 1)
                         else s.stats.(failedJobs := s.stats.failedJobs + 1)) &&
      (r.outcome == Deferred ==> r.state.stats == s.stats) &&
      (health == ReadFails || s.job.id !in s.store ==> r.state.stats == s.stats) &&
      r.state.stats.successfulEmails == s.stats.successfulEmails &&
      r.state.stats.failedEmails == s.stats.failedEmails
  {
  }

  /** A job that the store already holds as KILLED (or with no status)
      stays so through terminal reconciliation, whatever the exit code. */
  lemma TerminalNeverUndoesKill(s: MonitorState, exitCode: int, lookup: Option<string>, archiveUri: Option<string>,
                                health: StoreHealth)
    requires s.job.id in s.store && !MayOverwrite(s.store[s.job.id].status)
    ensures var r := TerminalStep(s, exitCode, lookup, archiveUri, health);
      r.state.store == s.store && r.state.stats == s.stats &&
      (r.outcome == Deferred <==> health != ReadFails)
  {
  }

  /** Only KILLED is protected: a stored SUCCEEDED or FAILED is
      overwritten by a checkpoint, and by terminal reconciliation, like any
      other non-null status. */
  lemma OtherTerminalStatesOverwritten(s: MonitorState, exitCode: int, lookup: Option<string>,
                                       archiveUri: Option<string>, running: Job)
    requires s.job.id in s.store && s.store[s.job.id].status in {Some(Succeeded), Some(Failed)}
    requires running.id == s.job.id
    ensures PeriodicWrite(s.store, running, Healthy) == s.store[s.job.id := running]
    ensures var r := TerminalStep(s, exitCode, lookup, archiveUri, Healthy);
      r.outcome == Applied && r.state.store[s.job.id].status == Some(JobVerdict(exitCode, lookup).status)
  {
  }

  /** The message of a failed job ends with the looked-up explanation when
      there is one. */
  lemma FailureMessageCarriesDetail(exitCode: int, detail: string)
    requires exitCode != SUCCESS_CODE && detail != []
    ensures var m := JobVerdict(exitCode, Some(detail)).message;
      |m| == |FAILURE_PREFIX| + |detail| && m[|FAILURE_PREFIX|..] == detail
  {
  }

  /** The poll loop keeps every stored job other than the monitor's own
      untouched, and never removes or adds a store entry. */
  lemma {:induction false} RunTouchesOnlyOwnJob(s: MonitorState, ticks: seq<Tick>, env: Env)
    ensures var r := RunTicks(s, ticks, env);
      r.state.store.Keys == s.store.Keys &&
      forall k :: k in s.store && k != s.job.id ==> r.state.store[k] == s.store[k]
    decreases |ticks|
  {
    if ticks != [] {
      var step := Poll(s, ticks[0], env);
      RunTouchesOnlyOwnJob(step.state, ticks[1..], env);
    }
  }

  /** KILLED is absorbing in the store across the poll loop: once the
      monitor's job is stored as KILLED, or an external kill lands during
      the loop, the job is KILLED in the store when the loop ends. */
  lemma {:induction false} RunKeepsKill(s: MonitorState, ticks: seq<Tick>, env: Env)
    requires s.job.id in s.store
    requires s.store[s.job.id].status == Some(Killed) || exists i :: 0 <= i < |ticks| && ticks[i].externalKill
    ensures var r := RunTicks(s, ticks, env);
      s.job.id in r.state.store && r.state.store[s.job.id].status == Some(Killed)
    decreases |ticks|
  {
    if ticks == [] {
    } else {
      var pre := if ticks[0].externalKill then s.(store := ExternalKill(s.store, s.job.id)) else s;
      var step := Poll(s, ticks[0], env);
      assert pre.job == s.job && s.job.id in pre.store;
      if pre.store[s.job.id].status == Some(Killed) {
        assert !MayOverwrite(pre.store[s.job.id].status);
        assert step.state.store[s.job.id] == pre.store[s.job.id];
        RunKeepsKill(step.state, ticks[1..], env);
      } else {
        assert !ticks[0].externalKill;
        var i :| 0 <= i < |ticks| && ticks[i].externalKill;
        assert ticks[1..][i - 1].externalKill;
        RunKeepsKill(step.state, ticks[1..], env);
      }
    }
  }

  /** Quota enforcement kills at most once: no kill is called after a
      successful one, none at all once the monitor has terminated the job,
      and `terminated` ends true exactly when some kill succeeded. */
  lemma {:induction false} KillAtMostOnce(s: MonitorState, ticks: seq<Tick>, env: Env)
    ensures var r := RunTicks(s, ticks, env);
      CountKills(r.log) <= (if s.terminated then 0 else 1) &&
      (s.terminated ==> forall i :: 0 <= i < |r.log| ==> !r.log[i].killInvoked) &&
      (forall i, j :: 0 <= i < j < |r.log| && r.log[i].killSucceeded ==> !r.log[j].killInvoked) &&
      (r.state.terminated <==> s.terminated || CountKills(r.log) == 1)
    decreases |ticks|
  {
    if ticks != [] {
      var step := Poll(s, ticks[0], env);
      var rest := RunTicks(step.state, ticks[1..], env);
      KillAtMostOnce(step.state, ticks[1..], env);
      var log := [step.event] + rest.log;
      assert RunTicks(s, ticks, env).log == log;
      assert log[1..] == rest.log;
      forall i, j | 0 <= i < j < |log| && log[i].killSucceeded
        ensures !log[j].killInvoked
      {
        if i == 0 {
          assert step.state.terminated;
          assert !rest.log[j - 1].killInvoked;
        } else {
          assert rest.log[i - 1].killSucceeded;
        }
      }
      if s.terminated {
        forall i | 0 <= i < |log| ensures !log[i].killInvoked {
          if i > 0 { assert !rest.log[i - 1].killInvoked; }
        }
      }
    }
  }

  /** The clock as the loop reads it: the checkpoint stamp is never before
      the reading that decided it, no reading precedes the previous stamp,
      and the first reading is not before the initial update time. */
  predicate ClockMonotone(last: int, ticks: seq<Tick>) {
    (forall i :: 0 <= i < |ticks| ==> ticks[i].now <= ticks[i].stamp) &&
    (forall i :: 0 <= i < |ticks| - 1 ==> ticks[i].stamp <= ticks[i + 1].now) &&
    (|ticks| > 0 ==> last <= ticks[0].now)
  }

  /** Checkpoints are never closer than the checkpoint interval: each one
      fires at least the interval after the initial update time, and at
      least the interval after every earlier checkpoint's stamp. */
  lemma {:induction false} CheckpointsSpaced(s: MonitorState, ticks: seq<Tick>, env: Env)
    requires ClockMonotone(s.lastUpdatedTimeMS, ticks)
    ensures var log := RunTicks(s, ticks, env).log;
      (forall j :: 0 <= j < |ticks| && log[j].fired ==> ticks[j].now - s.lastUpdatedTimeMS >= JOB_UPDATE_TIME_MS) &&
      (forall i, j :: 0 <= i < j < |ticks| && log[i].fired && log[j].fired ==>
        ticks[j].now - ticks[i].stamp >= JOB_UPDATE_TIME_MS)
    decreases |ticks|
  {
    if ticks != [] {
      var step := Poll(s, ticks[0], env);
      var rest := RunTicks(step.state, ticks[1..], env);
      var log := [step.event] + rest.log;
      assert RunTicks(s, ticks, env).log == log;
      assert s.lastUpdatedTimeMS <= step.state.lastUpdatedTimeMS <= ticks[0].stamp;
      assert ClockMonotone(step.state.lastUpdatedTimeMS, ticks[1..]) by {
        forall i | 0 <= i < |ticks[1..]| - 1 ensures ticks[1..][i].stamp <= ticks[1..][i + 1].now {
          assert ticks[1..][i] == ticks[i + 1] && ticks[1..][i + 1] == ticks[i + 2];
        }
      }
      CheckpointsSpaced(step.state, ticks[1..], env);
      forall j | 0 <= j < |ticks| && log[j].fired
        ensures ticks[j].now - s.lastUpdatedTimeMS >= JOB_UPDATE_TIME_MS
      {
        if j > 0 { assert rest.log[j - 1].fired && ticks[1..][j - 1] == ticks[j]; }
      }
      forall i, j | 0 <= i < j < |ticks| && log[i].fired && log[j].fired
        ensures ticks[j].now - ticks[i].stamp >= JOB_UPDATE_TIME_MS
      {
        assert rest.log[j - 1].fired && ticks[1..][j - 1] == ticks[j];
        if i > 0 { assert rest.log[i - 1].fired && ticks[1..][i - 1] == ticks[i]; }
      }
    }
  }

  /** Without an external kill the poll loop never makes the monitor's
      stored job unwritable: a job stored with a status other than KILLED
      still has one when the loop ends. */
  lemma {:induction false} RunKeepsOverwritable(s: MonitorState, ticks: seq<Tick>, env: Env)
    requires s.job.id in s.store && MayOverwrite(s.store[s.job.id].status)
    requires forall i :: 0 <= i < |ticks| ==> !ticks[i].externalKill
    ensures var r := RunTicks(s, ticks, env);
      s.job.id in r.state.store && MayOverwrite(r.state.store[s.job.id].status)
    decreases |ticks|
  {
    if ticks != [] {
      var step := Poll(s, ticks[0], env);
      assert step.state.store[s.job.id] == s.store[s.job.id] || step.state.store[s.job.id].status == Some(Running);
      assert forall i :: 0 <= i < |ticks[1..]| ==> ticks[1..][i] == ticks[i + 1];
      RunKeepsOverwritable(step.state, ticks[1..], env);
    }
  }
}
