/** The completion notice: whether an email is attempted, what it says,
    and which email counter the outcome bumps. The mail transport itself is
    an input: `transportOk` says whether delivery of the composed message
    succeeds.
 */
module Notification {
  import opened Jobs
  import opened Supervision

  const DEFAULT_FROM: string := "no-reply-genie@geniehost.com"
  const DEFAULT_SMTP_HOST: string := "localhost"
  const SUBJECT_HEAD: string := "Genie Job "
  const SUBJECT_STATUS: string := " completed with Status: "

  /** The mail settings read from the configuration; an absent sender or
      host falls back to its default, an absent user or password stays absent. */
  datatype MailConfig = MailConfig(
    enabled: bool,
    from: Option<string>,
    smtpHost: Option<string>,
    auth: bool,
    user: Option<string>,
    password: Option<string>)

  datatype Credentials = Credentials(user: string, password: string)

  /** The message handed to the transport. */
  datatype Message = Message(
    from: string,
    to: string,
    smtpHost: string,
    credentials: Option<Credentials>,
    subject: string,
    body: string)

  datatype NotifyResult = NotifyResult(state: MonitorState, attempt: Option<Message>)

  function OrDefault(o: Option<string>, default: string): string {
    match o
    case Some(v) => v
    case None => default
  }

  /** The status the subject line reports: KILLED when terminal
      reconciliation found the job killed, else the local job's status. */
  function ReportedStatus(job: Job, killed: bool): Option<JobStatus> {
    if killed then Some(Killed) else job.status
  }

  function Subject(job: Job, killed: bool): string {
    SUBJECT_HEAD + Text(job.name) + SUBJECT_STATUS + StatusText(ReportedStatus(job, killed))
  }

  /** The body always shows the local job's own status. */
  function Body(job: Job): string {
    "Your Genie Job is complete\n\n"
    + "Job ID: " + job.id + "\n"
    + "Job Name: " + Text(job.name) + "\n"
    + "Status: " + StatusText(job.status) + "\n"
    + "Status Message: " + Text(job.statusMsg) + "\n"
    + "Output Base URL: " + Text(job.outputUri) + "\n"
  }

  /** Whether mail can be sent at all: it must be enabled, and when SMTP
      authentication is on both the user and the password must be set. */
  predicate MailUsable(cfg: MailConfig) {
    cfg.enabled && !(cfg.auth && (cfg.user.None? || cfg.password.None?))
  }

  /** The message the monitor would hand to the transport for `emailTo`,
      or None when it gives up before composing one. */
  function ComposeEmail(cfg: MailConfig, emailTo: string, killed: bool, job: Job): (r: Option<Message>)
    ensures r.Some? <==> MailUsable(cfg)
    ensures r.Some? ==>
      r.value.to == emailTo &&
      r.value.from == OrDefault(cfg.from, DEFAULT_FROM) &&
      r.value.smtpHost == OrDefault(cfg.smtpHost, DEFAULT_SMTP_HOST) &&
      (r.value.credentials.Some? <==> cfg.auth) &&
      (cfg.auth ==> r.value.credentials == Some(Credentials(cfg.user.value, cfg.password.value))) &&
      r.value.subject == Subject(job, killed) &&
      r.value.body == Body(job)
  {
    if !cfg.enabled then
      None
    else if cfg.auth && (cfg.user.None? || cfg.password.None?) then
      None
    else
      var credentials := if cfg.auth then Some(Credentials(cfg.user.value, cfg.password.value)) else None;
      Some(Message(OrDefault(cfg.from, DEFAULT_FROM), emailTo, OrDefault(cfg.smtpHost, DEFAULT_SMTP_HOST),
                   credentials, Subject(job, killed), Body(job)))
  }

  /** The end of the monitor's run: notify the job's user, if it has one,
      and count the notice as sent or failed. */
  function NotifyStep(s: MonitorState, killed: bool, cfg: MailConfig, transportOk: bool): (r: NotifyResult)
    ensures r.state == s.(stats := r.state.stats)
    ensures r.state.stats.failedJobs == s.stats.failedJobs && r.state.stats.successfulJobs == s.stats.successfulJobs
    ensures s.job.userEmail.None? ==> r.state.stats == s.stats && r.attempt.None?
    ensures s.job.userEmail.Some? ==>
      r.attempt == ComposeEmail(cfg, s.job.userEmail.value, killed, s.job) &&
      r.state.stats.successfulEmails + r.state.stats.failedEmails == s.stats.successfulEmails + s.stats.failedEmails + 1
    ensures s.job.userEmail.Some? ==>
      r.state.stats == if r.attempt.Some? && transportOk
                       then s.stats.(successfulEmails := s.stats.successfulEmails + 1)
                       else s.stats.(failedEmails := s.stats.failedEmails + 1)
    ensures r.attempt.Some? <==> s.job.userEmail.Some? && MailUsable(cfg)
    ensures r.state.stats.successfulEmails == s.stats.successfulEmails + 1 <==> r.attempt.Some? && transportOk
  {
    match s.job.userEmail
    case None => NotifyResult(s, None)
    case Some(emailTo) =>
      var attempt := ComposeEmail(cfg, emailTo, killed, s.job);
      if attempt.Some? && transportOk then
        NotifyResult(s.(stats := s.stats.(successfulEmails := s.stats.successfulEmails + 1)), attempt)
      else
        NotifyResult(s.(stats := s.stats.(failedEmails := s.stats.failedEmails + 1)), attempt)
  }

  /** The subject line gives the reported status away: two subjects for
      jobs of the same name are equal only when they report the same status. */
  lemma SubjectDeterminesStatus(j1: Job, k1: bool, j2: Job, k2: bool)
    requires j1.name == j2.name
    requires Subject(j1, k1) == Subject(j2, k2)
    ensures ReportedStatus(j1, k1) == ReportedStatus(j2, k2)
  {
    var head := SUBJECT_HEAD + Text(j1.name) + SUBJECT_STATUS;
    var a, b := StatusText(ReportedStatus(j1, k1)), StatusText(ReportedStatus(j2, k2));
    assert Subject(j1, k1) == head + a && Subject(j2, k2) == head + b;
    assert a == (head + a)[|head|..] == (head + b)[|head|..] == b;
    StatusTextInjective(ReportedStatus(j1, k1), ReportedStatus(j2, k2));
  }
}
