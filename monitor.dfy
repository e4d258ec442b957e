/** The monitor of one running job, as an object whose methods update its
    fields in place, and the whole run of a monitor as a function.

    The job store and the node statistics are shared with the rest of the
    server; here they are fields of the monitor. The store lock shared by
    every monitor and every kill is the ghost field `lockHeld`: the
    monitor's own store writes go through `UpdateEntity`, which requires it;
    the kill of another actor writes under the same lock; `Checkpoint`,
    `WaitForExit`, `Terminal`, `Notify` and `Run` are entered and left
    without holding it.
 */
module Monitoring {
  import opened Jobs
  import opened Supervision
  import opened Notification

  /** How the process ended and what the environment does around the
      terminal reconciliation: whether a kill lands after the last poll,
      the exit code, the known explanation for it, the archive location
      for the job, and how the store behaves. */
  datatype Exit = Exit(
    lateKill: bool,
    exitCode: int,
    lookup: Option<string>,
    archiveUri: Option<string>,
    health: StoreHealth)

  /** The mail settings and whether the transport delivers. */
  datatype Mail = Mail(cfg: MailConfig, transportOk: bool)

  datatype Completion = Completion(state: MonitorState, log: seq<Event>, outcome: Outcome, attempt: Option<Message>)

  /** A whole run of the monitor: the poll loop from the start time, the
      terminal reconciliation and, unless the store failure escaped from
      it, the notification. */
  function Supervise(s: MonitorState, env: Env, start: int, ticks: seq<Tick>, exit: Exit, mail: Mail): Completion {
    var loop := RunTicks(s.(lastUpdatedTimeMS := start), ticks, env);
    var before := if exit.lateKill then loop.state.(store := ExternalKill(loop.state.store, loop.state.job.id))
                  else loop.state;
    var term := TerminalStep(before, exit.exitCode, exit.lookup, exit.archiveUri, exit.health);
    if term.outcome == StoreError then
      Completion(term.state, loop.log, StoreError, None)
    else
      var n := NotifyStep(term.state, term.outcome == Deferred, mail.cfg, mail.transportOk);
      Completion(n.state, loop.log, term.outcome, n.attempt)
  }

  /** A kill that reached the store before the terminal reconciliation
      wins: nothing is counted as a finished job, the store still holds the
      job as KILLED, and the notice, if there is one, reports KILLED. */
  lemma KillWins(s: MonitorState, env: Env, start: int, ticks: seq<Tick>, exit: Exit, mail: Mail)
    requires s.job.id in s.store
    requires s.store[s.job.id].status == Some(Killed) || exit.lateKill ||
             exists i :: 0 <= i < |ticks| && ticks[i].externalKill
    requires exit.health != ReadFails
    ensures var c := Supervise(s, env, start, ticks, exit, mail);
      c.outcome == Deferred &&
      s.job.id in c.state.store && c.state.store[s.job.id].status == Some(Killed) &&
      c.state.stats.failedJobs == s.stats.failedJobs && c.state.stats.successfulJobs == s.stats.successfulJobs &&
      (c.attempt.Some? ==> c.attempt.value.subject == SUBJECT_HEAD + Text(s.job.name) + SUBJECT_STATUS + "KILLED")
  {
    var s0 := s.(lastUpdatedTimeMS := start);
    var loop := RunTicks(s0, ticks, env);
    RunTouchesOnlyOwnJob(s0, ticks, env);
    if !exit.lateKill {
      RunKeepsKill(s0, ticks, env);
    }
  }

  /** Without any kill, and with a store that works and holds the job with
      a status, the monitor's verdict is what ends up stored, exactly one
      finished job is counted, and the notice reports that verdict. */
  lemma VerdictStored(s: MonitorState, env: Env, start: int, ticks: seq<Tick>, exit: Exit, mail: Mail)
    requires s.job.id in s.store && MayOverwrite(s.store[s.job.id].status)
    requires !exit.lateKill && exit.health == Healthy
    requires forall i :: 0 <= i < |ticks| ==> !ticks[i].externalKill
    ensures var c := Supervise(s, env, start, ticks, exit, mail);
      var v := JobVerdict(exit.exitCode, exit.lookup);
      c.outcome == Applied &&
      c.state.store[s.job.id] == c.state.job &&
      c.state.job.status == Some(v.status) && c.state.job.statusMsg == Some(v.message) &&
      c.state.stats.failedJobs + c.state.stats.successfulJobs == s.stats.failedJobs + s.stats.successfulJobs + 1 &&
      (c.attempt.Some? ==> c.attempt.value.subject == SUBJECT_HEAD + Text(s.job.name) + SUBJECT_STATUS + StatusText(Some(v.status)))
  {
    var s0 := s.(lastUpdatedTimeMS := start);
    RunKeepsOverwritable(s0, ticks, env);
    var loop := RunTicks(s0, ticks, env);
    TerminalCountsOnce(loop.state, exit.exitCode, exit.lookup, exit.archiveUri, exit.health);
  }

  class JobMonitor {
    var lastUpdatedTimeMS: int
    var terminated: bool
    var job: Job
    var store: Store
    var failedJobs: nat
    var successfulJobs: nat
    var successfulEmails: nat
    var failedEmails: nat
    ghost var lockHeld: bool

    /** Whether a working directory, and so a stdout file, is known. */
    const stdoutSet: bool
    const maxStdoutSize: Option<int>

    ghost function State(): MonitorState
      reads this
    {
      MonitorState(lastUpdatedTimeMS, terminated, job, store,
                   Counters(failedJobs, successfulJobs, successfulEmails, failedEmails))
    }

    function Config(): Env {
      Env(stdoutSet, maxStdoutSize)
    }

    constructor (job: Job, workingDirSet: bool, maxStdoutSize: Option<int>, store: Store, stats: Counters)
      ensures State() == MonitorState(0, false, job, store, stats)
      ensures Config() == Env(workingDirSet, maxStdoutSize)
      ensures !lockHeld
    {
      this.job := job;
      this.stdoutSet := workingDirSet;
      this.maxStdoutSize := maxStdoutSize;
      this.store := store;
      this.lastUpdatedTimeMS := 0;
      this.terminated := false;
      this.failedJobs, this.successfulJobs := stats.failedJobs, stats.successfulJobs;
      this.successfulEmails, this.failedEmails := stats.successfulEmails, stats.failedEmails;
      this.lockHeld := false;
    }

    /** The store write; allowed only under the store lock. */
    method UpdateEntity(j: Job)
      requires lockHeld
      modifies this`store
      ensures store == old(store)[j.id := j]
    {
      store := store[j.id := j];
    }

    /** A kill issued by another actor: under the store lock, the stored
        job becomes KILLED. */
    method ExternalKillWrite()
      requires !lockHeld
      modifies this`store, this`lockHeld
      ensures !lockHeld
      ensures store == ExternalKill(old(store), job.id)
    {
      lockHeld := true;
      if job.id in store {
        store := store[job.id := store[job.id].(status := Some(Killed))];
      }
      lockHeld := false;
    }

    /** The checkpoint branch of one poll: the cadence check, the periodic
        reconciliation and the stdout quota. */
    method Checkpoint(t: Tick) returns (fired: bool, killInvoked: bool, killSucceeded: bool)
      requires !lockHeld
      modifies this
      ensures !lockHeld
      ensures StepResult(State(), Event(fired, killInvoked, killSucceeded)) == CheckpointStep(old(State()), t, Config())
    {
      fired, killInvoked, killSucceeded := false, false, false;
      if ShouldUpdateJob(t.now, lastUpdatedTimeMS) {
        fired := true;
        lastUpdatedTimeMS := t.stamp;
        job := job.(status := Some(Running), statusMsg := Some(RUNNING_MSG), updateTime := lastUpdatedTimeMS);

        lockHeld := true;
        if t.health != ReadFails && job.id in store {
          var stored := store[job.id];
          if MayOverwrite(stored.status) && t.health != WriteFails {
            UpdateEntity(job);
          }
        }
        lockHeld := false;

        if stdoutSet && t.stdoutExists && maxStdoutSize.Some? && t.stdoutLength > maxStdoutSize.value && !terminated {
          killInvoked := true;
          if t.killSucceeds {
            terminated := true;
            killSucceeded := true;
          }
        }
      }
    }

    /** The poll loop: one iteration per poll made while the process runs. */
    method WaitForExit(start: int, ticks: seq<Tick>) returns (log: seq<Event>)
      requires !lockHeld
      modifies this
      ensures !lockHeld
      ensures RunResult(State(), log) == RunTicks(old(State()).(lastUpdatedTimeMS := start), ticks, Config())
    {
      lastUpdatedTimeMS := start;
      ghost var whole := RunTicks(State(), ticks, Config());
      log := [];
      var i := 0;
      while i < |ticks|
        invariant 0 <= i <= |ticks|
        invariant !lockHeld
        invariant var rest := RunTicks(State(), ticks[i..], Config());
          whole == RunResult(rest.state, log + rest.log)
      {
        var t := ticks[i];
        ghost var pre := State();
        ghost var rest := RunTicks(pre, ticks[i..], Config());
        assert ticks[i..][0] == t && ticks[i..][1..] == ticks[i + 1..];
        ghost var step := Poll(pre, t, Config());
        assert rest == RunResult(RunTicks(step.state, ticks[i + 1..], Config()).state,
                                 [step.event] + RunTicks(step.state, ticks[i + 1..], Config()).log);
        if t.externalKill {
          ExternalKillWrite();
        }
        var fired, killInvoked, killSucceeded := Checkpoint(t);
        assert StepResult(State(), Event(fired, killInvoked, killSucceeded)) == step;
        log := log + [Event(fired, killInvoked, killSucceeded)];
        i := i + 1;
      }
      assert ticks[i..] == [];
      assert log + [] == log;
    }

    /** The applied branch's verdict: the job's final status and message,
        and the matching job counter. */
    method RecordVerdict(exitCode: int, lookup: Option<string>)
      modifies this`job, this`failedJobs, this`successfulJobs
      ensures var v := JobVerdict(exitCode, lookup);
        job == old(job).(status := Some(v.status), statusMsg := Some(v.message)) &&
        Counters(failedJobs, successfulJobs, successfulEmails, failedEmails) ==
          Tally(Counters(old(failedJobs), old(successfulJobs), successfulEmails, failedEmails), v.status)
    {
      if exitCode != SUCCESS_CODE {
        var detail := FailureDetail(lookup);
        job := job.(status := Some(Failed), statusMsg := Some(FAILURE_PREFIX + detail));
        failedJobs := failedJobs + 1;
      } else {
        job := job.(status := Some(Succeeded), statusMsg := Some(SUCCESS_MSG));
        successfulJobs := successfulJobs + 1;
      }
    }

    /** Terminal reconciliation of the exit code with the stored job. */
    method Terminal(exitCode: int, lookup: Option<string>, archiveUri: Option<string>, health: StoreHealth)
      returns (outcome: Outcome)
      requires !lockHeld
      modifies this
      ensures !lockHeld
      ensures TerminalResult(State(), outcome) == TerminalStep(old(State()), exitCode, lookup, archiveUri, health)
    {
      job := job.(exitCode := Some(exitCode));
      lockHeld := true;
      if health == ReadFails || job.id !in store {
        lockHeld := false;
        return StoreError;
      }
      var stored := store[job.id];
      if MayOverwrite(stored.status) {
        RecordVerdict(exitCode, lookup);
        if !job.disableLogArchival {
          job := job.(archiveLocation := archiveUri);
        }
        if health == WriteFails {
          lockHeld := false;
          return StoreError;
        }
        UpdateEntity(job);
        lockHeld := false;
        outcome := Applied;
      } else {
        lockHeld := false;
        outcome := Deferred;
      }
    }

    /** The completion notice and its counter. */
    method Notify(killed: bool, cfg: MailConfig, transportOk: bool) returns (attempt: Option<Message>)
      requires !lockHeld
      modifies this`successfulEmails, this`failedEmails
      ensures !lockHeld
      ensures NotifyResult(State(), attempt) == NotifyStep(old(State()), killed, cfg, transportOk)
    {
      attempt := None;
      if job.userEmail.Some? {
        attempt := ComposeEmail(cfg, job.userEmail.value, killed, job);
        if attempt.Some? && transportOk {
          successfulEmails := successfulEmails + 1;
        } else {
          failedEmails := failedEmails + 1;
        }
      }
    }

    /** The monitor's whole run. */
    method Run(start: int, ticks: seq<Tick>, exit: Exit, mail: Mail)
      returns (log: seq<Event>, outcome: Outcome, attempt: Option<Message>)
      requires !lockHeld
      modifies this
      ensures !lockHeld
      ensures Completion(State(), log, outcome, attempt) == Supervise(old(State()), Config(), start, ticks, exit, mail)
    {
      log := WaitForExit(start, ticks);
      if exit.lateKill {
        ExternalKillWrite();
      }
      outcome := Terminal(exit.exitCode, exit.lookup, exit.archiveUri, exit.health);
      attempt := None;
      if outcome != StoreError {
        var killed := outcome == Deferred;
        attempt := Notify(killed, mail.cfg, mail.transportOk);
      }
    }
  }
}
