# Genie job monitor — a Dafny model

Genie launches one `JobMonitor` thread per job process it starts. The monitor
does four things:

- It polls the process until it exits.
- Whenever the checkpoint interval (60 s) has passed, it rewrites the local
  job as RUNNING and writes it into the job store. It skips the write when
  the stored job is already KILLED.
- At the same checkpoints it enforces a stdout size limit by killing the job,
  at most once.
- When the process has exited, it reconciles the final status with the store
  under the store's write lock, then emails the job's user.

This project models that decision logic, in four modules:

- `Jobs` (`jobs.dfy`): the job record and its lifecycle statuses. The
  monitor's local copy and the store's entries use the same record. Every
  field that Java can leave null is an `Option`. `StatusText` and `Text` say
  how a value prints inside a string concatenation; null prints as `"null"`.
- `Supervision` (`supervision.dfy`): the pure specification.
  - `CheckpointStep` covers the cadence check, the periodic reconciliation
    and the quota check.
  - `Poll` runs one loop iteration, with an optional external kill landing
    first. `RunTicks` runs the whole poll loop.
  - `TerminalStep` is the terminal reconciliation.
  - The lemmas about all of these follow them in the file.
- `Notification` (`notification.dfy`): when mail is possible
  (`MailUsable`) and the message handed to the transport (`ComposeEmail`).
  `NotifyStep` picks the email counter to bump.
- `Monitoring` (`monitor.dfy`): the class `JobMonitor`. Its fields are the
  monitor's own fields, the job store (a `map`), the four node counters and a
  ghost `lockHeld` flag for the store lock. Each method is proved to do
  exactly what its specification function says (`Checkpoint` does
  `CheckpointStep`, `WaitForExit` does `RunTicks`, `Terminal` does
  `TerminalStep`, `Notify` does `NotifyStep`, `Run` does `Supervise`).
  `Checkpoint`, `WaitForExit`, `Terminal`, `Notify` and `Run` are entered
  and left without holding the lock. The monitor's own store writes go
  through `UpdateEntity`, which requires the lock to be held.
  `ExternalKillWrite`, which stands for another actor, writes the store
  directly under the same lock. The end-to-end
  lemmas `KillWins` and `VerdictStored` are also in this module.

The environment becomes explicit inputs:

- The two clock readings of a checkpoint are `Tick.now` (line 128) and
  `Tick.stamp` (line 156).
- Whether the process is still running is the length of the tick sequence.
  There is one `Tick` per loop iteration while `isRunning()` holds.
- The stdout file's existence and length are tick fields.
- The kill call's success is `Tick.killSucceeds`; the mail transport's is
  `transportOk`.
- Store behaviour is `StoreHealth`: the read can fail, or the write can fail.
- Another actor's kill is a write of KILLED into the store. It can land
  before any poll (`Tick.externalKill`) or between the last poll and the
  terminal reconciliation (`Exit.lateKill`). In the class this is
  `ExternalKillWrite`, which takes the same lock.
- The exit code's explanation is `lookup`, and the archive location is
  `archiveUri`. Both are foreign results that may be null, so both are
  `Option`s; a null archive location is stored as null.
- The mail settings are `MailConfig`.
- The success exit code is 0 (`SUCCESS_CODE`).
- The status names are those of Genie's `Types.JobStatus`: INIT, RUNNING,
  SUCCEEDED, FAILED, KILLED. `Types` is not part of this model.

Where the code and the intended design of the component differ, the model
follows the code:

- The monitor defers only to KILLED, not to the other terminal states. A
  stored SUCCEEDED or FAILED is overwritten by a checkpoint with RUNNING, and
  by terminal reconciliation with the new verdict (lines 166-168, 230-259).
- A stored job with a null status is treated like a KILLED one. The monitor
  does not write it, and terminal reconciliation reports it as killed
  (lines 166, 230, 261-266).
- The failed and successful job counters are bumped only when the terminal
  update is applied. A deferred reconciliation bumps neither (lines 244,
  250).
- When mail is disabled but the job has a user email, the failed-email
  counter is still bumped (lines 303-305, 288).
- The terminal path has no `catch`. A store failure there, including a job
  missing from the store (a `NullPointerException` at line 230), escapes from
  `run`. No email is attempted. When the failure is in the write, the local
  job has already been set to its final status and the job counter has
  already been bumped (`StoreError` in `TerminalStep`).
- The subject reports KILLED when the job was found killed. The body's
  "Status:" line still shows the local job's own status, typically RUNNING
  (lines 366-370 against 387).

## Model

| member | source | states |
|---|---|---|
| `Jobs.StatusTextInjective` | genie-server/src/main/java/com/netflix/genie/server/jobmanager/impl/JobMonitor.java:373-376 | different job statuses print as different texts, so the printed status identifies the status |
| `Supervision.PeriodicWrite` | genie-server/src/main/java/com/netflix/genie/server/jobmanager/impl/JobMonitor.java:161-181 | the local job is written to the store exactly when the store works, holds the job, and its stored status is set and not KILLED; otherwise the store is unchanged; nothing but the job's own entry ever changes |
| `Supervision.CheckpointStep` | genie-server/src/main/java/com/netflix/genie/server/jobmanager/impl/JobMonitor.java:127-198 | fires iff `now - lastUpdatedTimeMS >= 60000`; not firing changes nothing; firing sets the last update time and the job's update time to the stamp and the job to RUNNING / "Job is running", then does the guarded store write; the kill is invoked iff it fired, stdout is known, exists, a limit is set, the length is strictly over it and the job is not yet terminated; `terminated` becomes true iff it was or the kill succeeded; counters unchanged |
| `Supervision.RunTicks` | genie-server/src/main/java/com/netflix/genie/server/jobmanager/impl/JobMonitor.java:141-203 | the poll loop records one event per poll and keeps the job's id, name, user email and the counters |
| `Supervision.KillAtMostOnce` | genie-server/src/main/java/com/netflix/genie/server/jobmanager/impl/JobMonitor.java:183-197 | over any sequence of polls at most one kill succeeds (none if the monitor had already terminated the job), no kill is invoked after a successful one, and `terminated` ends true iff some kill succeeded |
| `Supervision.CheckpointsSpaced` | genie-server/src/main/java/com/netflix/genie/server/jobmanager/impl/JobMonitor.java:127-158 | on a clock that does not run backwards, every checkpoint fires at least 60000 ms after the start time and at least 60000 ms after the stamp of every earlier checkpoint, whatever the poll granularity |
| `Supervision.RunKeepsKill` | genie-server/src/main/java/com/netflix/genie/server/jobmanager/impl/JobMonitor.java:160-169 | once the job is KILLED in the store, or an external kill lands during the loop, the job is stored as KILLED when the loop ends: periodic updates never undo a kill |
| `Supervision.RunTouchesOnlyOwnJob` | genie-server/src/main/java/com/netflix/genie/server/jobmanager/impl/JobMonitor.java:164-168 | the poll loop neither adds nor removes store entries and leaves every other job's entry as it was |
| `Supervision.RunKeepsOverwritable` | genie-server/src/main/java/com/netflix/genie/server/jobmanager/impl/JobMonitor.java:164-169 | without external kills, a job stored with a non-null, non-KILLED status still has such a status after the loop (periodic writes only store RUNNING) |
| `Supervision.FailureDetail` | genie-server/src/main/java/com/netflix/genie/server/jobmanager/impl/JobMonitor.java:237-240 | the explanation is the looked-up message when it is non-null and non-empty, else "Please look at job's stderr for more details"; never empty |
| `Supervision.JobVerdict` | genie-server/src/main/java/com/netflix/genie/server/jobmanager/impl/JobMonitor.java:233-251 | exit code 0 gives SUCCEEDED with "Job finished successfully", any other code gives FAILED with "Failed to execute job, Error Message: " followed by the explanation; the verdict is terminal and never KILLED |
| `Supervision.FailureMessageCarriesDetail` | genie-server/src/main/java/com/netflix/genie/server/jobmanager/impl/JobMonitor.java:237-242 | a failed job's message ends with the looked-up explanation (e.g. "disk full") when there is one |
| `Supervision.TerminalStep` | genie-server/src/main/java/com/netflix/genie/server/jobmanager/impl/JobMonitor.java:217-273 | the exit code is always recorded; the update is applied iff the store works and holds the job with a non-null, non-KILLED status, and then the stored entry becomes the finished local job; it is deferred iff the read works and the stored status is null or KILLED, leaving store, job and counters unchanged; a read failure or missing job escapes with nothing changed; a write failure escapes after the local job and the counter were updated; the archive location is set, to the possibly-null archive URI, iff log archival is not disabled |
| `Supervision.TerminalCountsOnce` | genie-server/src/main/java/com/netflix/genie/server/jobmanager/impl/JobMonitor.java:241-251 | an applied reconciliation raises exactly one job counter by one and leaves the rest: the successful one iff the exit code is 0, else the failed one; a deferred one, a failed read or a missing job bumps none; the email counters are never touched |
| `Supervision.TerminalNeverUndoesKill` | genie-server/src/main/java/com/netflix/genie/server/jobmanager/impl/JobMonitor.java:229-267 | when the stored status is null or KILLED, terminal reconciliation leaves the store and counters as they were, and reports the job killed unless the read failed |
| `Supervision.OtherTerminalStatesOverwritten` | genie-server/src/main/java/com/netflix/genie/server/jobmanager/impl/JobMonitor.java:166-259 | a stored SUCCEEDED or FAILED is not protected: a checkpoint writes over it, and terminal reconciliation applies and stores the new verdict |
| `Notification.ComposeEmail` | genie-server/src/main/java/com/netflix/genie/server/jobmanager/impl/JobMonitor.java:300-396 | a message is composed iff mail is enabled and, when SMTP auth is on, both user and password are set; it goes to the user's address, from the configured sender (default no-reply-genie@geniehost.com) via the configured host (default localhost), carries credentials iff auth is on, and has the subject "Genie Job <name> completed with Status: <status>" and the fixed body layout |
| `Notification.NotifyStep` | genie-server/src/main/java/com/netflix/genie/server/jobmanager/impl/JobMonitor.java:275-290 | with no user email nothing is attempted and no counter changes; otherwise exactly one email counter rises by one and every other counter stays: the successful one when a message was composed and delivered, the failed one when none was composed or delivery failed; a message is attempted iff there is a user email and mail is usable; only the email counters change |
| `Notification.SubjectDeterminesStatus` | genie-server/src/main/java/com/netflix/genie/server/jobmanager/impl/JobMonitor.java:364-376 | for jobs of the same name, equal subject lines report the same status (KILLED when the job was found killed, else the local status) |
| `Monitoring.KillWins` | genie-server/src/main/java/com/netflix/genie/server/jobmanager/impl/JobMonitor.java:210-290 | if the job was KILLED in the store before the run, or a kill lands during the loop or after it, and the store can be read: the reconciliation defers, the job stays KILLED in the store, no finished job is counted, and any notice's subject ends "completed with Status: KILLED" |
| `Monitoring.VerdictStored` | genie-server/src/main/java/com/netflix/genie/server/jobmanager/impl/JobMonitor.java:210-290 | with no kill and a working store holding the job with a status, the reconciliation applies, the stored entry is the local job carrying the exit-code verdict and message, exactly one finished job is counted, and any notice's subject reports that verdict |
| `Monitoring.JobMonitor.constructor` | genie-server/src/main/java/com/netflix/genie/server/jobmanager/impl/JobMonitor.java:95-105 | a new monitor has not terminated the job, does not hold the lock, and records whether a working directory (hence a stdout file) is known and the stdout limit |
| `Monitoring.JobMonitor.UpdateEntity` | genie-server/src/main/java/com/netflix/genie/server/jobmanager/impl/JobMonitor.java:259 | the store write, callable only while the store lock is held; stores the job under its id |
| `Monitoring.JobMonitor.Checkpoint` | genie-server/src/main/java/com/netflix/genie/server/jobmanager/impl/JobMonitor.java:152-198 | the new fields, store and counters and the returned events are those of `CheckpointStep`; the lock is released on every path |
| `Monitoring.JobMonitor.WaitForExit` | genie-server/src/main/java/com/netflix/genie/server/jobmanager/impl/JobMonitor.java:141-203 | from the start time, the loop leaves the state and returns the event log of `RunTicks`; the lock is not held afterwards |
| `Monitoring.JobMonitor.Terminal` | genie-server/src/main/java/com/netflix/genie/server/jobmanager/impl/JobMonitor.java:217-273 | the new state and the outcome are those of `TerminalStep`; the lock is released on every path, the escaping failures included |
| `Monitoring.JobMonitor.RecordVerdict` | genie-server/src/main/java/com/netflix/genie/server/jobmanager/impl/JobMonitor.java:233-251 | sets the job's status and message to the exit-code verdict and bumps the matching job counter, nothing else |
| `Monitoring.JobMonitor.Notify` | genie-server/src/main/java/com/netflix/genie/server/jobmanager/impl/JobMonitor.java:277-290 | the new counters and the attempted message are those of `NotifyStep`; nothing else changes, and the lock is not held before or after |
| `Monitoring.JobMonitor.Run` | genie-server/src/main/java/com/netflix/genie/server/jobmanager/impl/JobMonitor.java:210-291 | the whole run (poll loop, terminal reconciliation, notification unless a store failure escaped) ends in the state `Supervise` gives, without holding the lock |

## Left out

- Threading: the `Thread` subclass, `Thread.sleep` with the 5000 ms poll interval, and `InterruptedException` handling. The poll loop is a sequence of supplied ticks.
- Process I/O: `isRunning` and `proc.exitValue()`. Liveness is the length of the tick sequence, and the exit code is an input.
- The `ReentrantReadWriteLock` and real thread interleaving. The lock is a ghost flag. Other actors are represented only by their KILLED writes, made between polls and once before the terminal reconciliation.
- `PersistenceManager` internals. The store is a `map` from job id to job. A failing write is taken to leave the store unchanged.
- `JobManagerFactory.getJobManager(...).kill`. It is a foreign call: only `CloudServiceException` (a failed kill) is modelled, not other runtime exceptions.
- `NetUtil.getArchiveURI` and `SubprocessStatus.message`. Their results are parameters (`archiveUri`, `lookup`).
- Configuration lookups through `ConfigurationManager` and `AbstractConfiguration`. They are the parameters `Env` and `MailConfig`. The file path `workingDir + "/stdout.log"` is replaced by whether a working directory is known.
- `File.exists` and `File.length`. Their results are tick fields.
- JavaMail: `Session`, `MimeMessage`, the `Properties` setup, `Transport.send` and `SMTPAuthenticator`. Delivery is `transportOk`, and an address that fails to parse counts as a failed delivery. The authenticator is the `Credentials` carried by the message.
- Logging, including the messages the monitor logs and the `LOG.debug` line that prints the SMTP password.
- `GenieNodeStatistics` as a singleton. Its counters are plain fields.
- Supervision.CheckpointStep: does not model the 64-bit `long` subtraction `curTimeMS - lastUpdatedTimeMS` wrapping around. Clock readings are unbounded integers, because millisecond timestamps are far from the `long` range.
