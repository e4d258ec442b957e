/** The job record shared by the monitor and the job store.

    The local working copy held by the monitor and the entries of the store
    have the same shape, because the store persists the monitor's copy as is.
    Every reference-typed field the monitor reads may be null in the Java code;
    those fields are `Option`s here.
 */
module Jobs {

  datatype Option<T> = None | Some(value: T)

  /** The lifecycle states of a job. */
  datatype JobStatus = Init | Running | Succeeded | Failed | Killed

  /** The terminal states, SUCCEEDED, FAILED and KILLED. Of these the
      monitor defers only to KILLED: it overwrites a stored SUCCEEDED or
      FAILED like any other non-null status. */
  predicate IsTerminal(s: JobStatus) {
    s == Succeeded || s == Failed || s == Killed
  }

  /** The text a status prints as inside a string concatenation; a null
      status prints as "null". */
  function StatusText(s: Option<JobStatus>): string {
    match s
    case None => "null"
    case Some(Init) => "INIT"
    case Some(Running) => "RUNNING"
    case Some(Succeeded) => "SUCCEEDED"
    case Some(Failed) => "FAILED"
    case Some(Killed) => "KILLED"
  }

  /** Different statuses print differently, so a printed status can be read back. */
  lemma StatusTextInjective(a: Option<JobStatus>, b: Option<JobStatus>)
    requires StatusText(a) == StatusText(b)
    ensures a == b
  {
  }

  /** The text a possibly-null string prints as inside a concatenation. */
  function Text(s: Option<string>): string {
    match s
    case None => "null"
    case Some(v) => v
  }

  datatype Job = Job(
    id: string,
    name: Option<string>,
    status: Option<JobStatus>,
    statusMsg: Option<string>,
    exitCode: Option<int>,
    updateTime: int,
    archiveLocation: Option<string>,
    disableLogArchival: bool,
    userEmail: Option<string>,
    outputUri: Option<string>)
}
