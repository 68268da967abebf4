/** The task table: its rows, its CHECK constraint and the effect of every SQL
    statement that the worker and the manager run on it.  Each function below
    stands for one transaction. */
module TaskTable {
  import opened Wrappers

  // SQLite numbers rows from 1, so that the test `if task_id:` is never false of a real row.
  type RowId = i: int | 1 <= i witness 1
  type Pid = p: int | 1 <= p witness 1
  type Time = int

  datatype Status = QUEUED | ACTIVE | COMPLETED | FAILED

  // The decoded task_args column: a JSON object, or anything else.
  datatype ArgValue = Str(text: string) | Num(value: int)
  datatype TaskArgs = DictArgs(fields: map<string, ArgValue>) | ListArgs(items: seq<string>)

  datatype Task = Task(
    status: Status,
    taskType: string,
    args: TaskArgs,
    added: Time,
    started: Option<Time>,
    pid: Option<Pid>,
    completed: Option<Time>,
    result: Option<string>,
    error: Option<string>,
    package: Option<string>)

  type Table = map<RowId, Task>

  /** The CHECK constraint valid_task_status_transitions. */
  predicate CheckConstraint(t: Task) {
    || t.status.QUEUED?
    || (t.status.ACTIVE? && t.started.Some? && t.pid.Some?)
    || (t.status.COMPLETED? && t.completed.Some? && t.result.Some?)
    || (t.status.FAILED? && t.completed.Some? && t.error.Some?)
  }

  predicate Terminal(t: Task) {
    t.status.COMPLETED? || t.status.FAILED?
  }

  predicate Unfinished(t: Task) {
    t.status.QUEUED? || t.status.ACTIVE?
  }

  predicate FreshTask(t: Task) {
    && t.status.QUEUED? && t.started.None? && t.pid.None?
    && t.completed.None? && t.result.None? && t.error.None?
  }

  function Queued(rows: Table): set<RowId> {
    set id | id in rows && rows[id].status.QUEUED?
  }

  predicate HeldBy(t: Task, pid: Pid) {
    t.status.ACTIVE? && t.pid == Some(pid)
  }

  // ----- Claiming -----

  /** The row that `ORDER BY added ASC LIMIT 1` may return; ties are broken by the database. */
  predicate OldestQueued(rows: Table, id: RowId) {
    && id in rows && rows[id].status.QUEUED?
    && forall other :: other in rows && rows[other].status.QUEUED? ==> rows[id].added <= rows[other].added
  }

  function ClaimRow(rows: Table, id: RowId, pid: Pid, now: Time): Table
    requires id in rows
  {
    rows[id := rows[id].(status := ACTIVE, started := Some(now), pid := Some(pid))]
  }

  // ----- Handlers -----

  datatype Verdict = Completed | Failed

  /** What running a task handler can come to.  A payload of None is a value
      that json.dumps rejects. */
  datatype Outcome =
    | Raised(message: string)
    | RaisedTaskError(message: string, payload: Option<string>)
    | Returned(verdict: Verdict, error: Option<string>, results: Option<string>)

  const DICT_HANDLERS: set<string> := {"verify_archive_integrity", "package_bulk_download"}

  const LIST_HANDLERS: set<string> := {
    "verify_archive_structure", "verify_license_files", "verify_signature", "verify_license_headers",
    "verify_rat_license", "generate_cyclonedx_sbom", "mailtest_send", "vote_initiate"}

  /** The outcome of looking up a handler by task type and argument shape, and running it. */
  function Dispatch(taskType: string, args: TaskArgs, handler: Outcome): Outcome {
    if taskType in (if args.DictArgs? then DICT_HANDLERS else LIST_HANDLERS) then handler
    else Raised("Unknown task type: " + taskType)
  }

  /** Two types take an object and eight a list; everything else is an unknown type. */
  lemma DispatchIs(taskType: string, args: TaskArgs, handler: Outcome)
    ensures Dispatch(taskType, args, handler) ==
      if (args.DictArgs? && (taskType == "verify_archive_integrity" || taskType == "package_bulk_download"))
         || (args.ListArgs?
             && (taskType == "verify_archive_structure" || taskType == "verify_license_files"
                 || taskType == "verify_signature" || taskType == "verify_license_headers"
                 || taskType == "verify_rat_license" || taskType == "generate_cyclonedx_sbom"
                 || taskType == "mailtest_send" || taskType == "vote_initiate"))
      then handler else Raised("Unknown task type: " + taskType)
  {
  }

  /** The exception that reaches the error handler. */
  datatype Exn = Plain(message: string) | TaskError(message: string, payload: Option<string>)

  const NOT_SERIALISABLE: string := "Object is not JSON serializable"
  const CHECK_FAILED: string := "CHECK constraint failed: valid_task_status_transitions"

  function StatusOf(v: Verdict): Status {
    if v.Completed? then COMPLETED else FAILED
  }

  /** The worker's final write.  It names the row by id alone, so it writes
      nothing when the row has been deleted and overwrites whatever status the
      row has otherwise. */
  function WriteResult(rows: Table, id: RowId, now: Time, r: Outcome): Result<Table, Exn> {
    match r
    case Raised(m) => Failure(Plain(m))
    case RaisedTaskError(m, payload) => Failure(TaskError(m, payload))
    case Returned(v, error, results) =>
      if results.None? then Failure(Plain(NOT_SERIALISABLE))
      else if id !in rows then Success(rows)
      else
        var written := rows[id].(status := StatusOf(v), completed := Some(now), result := results);
        var t := if v.Failed? && error.Some? && error.value != "" then written.(error := error) else written;
        if CheckConstraint(t) then Success(rows[id := t]) else Failure(Plain(CHECK_FAILED))
  }

  /** The error handler's write; None when it raises in turn, because the
      payload of the task error is not serialisable. */
  function WriteError(rows: Table, id: RowId, now: Time, e: Exn): Option<Table> {
    if e.TaskError? && e.payload.None? then None
    else if id !in rows then Some(rows)
    else
      var t := rows[id].(status := FAILED, completed := Some(now), error := Some(e.message));
      Some(rows[id := if e.TaskError? then t.(result := e.payload) else t])
  }

  /** Both writes, one after the other; None when the exception escapes. */
  function Process(rows: Table, id: RowId, now: Time, later: Time, r: Outcome): Option<Table> {
    match WriteResult(rows, id, now, r)
    case Success(rows') => Some(rows')
    case Failure(e) => WriteError(rows, id, later, e)
  }

  /** An outcome that the error handler can record. */
  predicate Recordable(r: Outcome) {
    r.RaisedTaskError? ==> r.payload.Some?
  }

  /** The error text that a failed task ends with. */
  function FinalError(r: Outcome): string
    requires !(r.Returned? && r.verdict.Completed? && r.results.Some?)
  {
    match r
    case Raised(m) => m
    case RaisedTaskError(m, _) => m
    case Returned(_, error, results) =>
      if results.None? then NOT_SERIALISABLE
      else if error.Some? && error.value != "" then error.value
      else CHECK_FAILED
  }

  /** Processing a claimed task always ends it, whatever its handler does, with
      one exception: a task error whose payload cannot be serialised leaves the
      row as it was. */
  lemma ProcessIsTotal(rows: Table, id: RowId, now: Time, later: Time, r: Outcome)
    requires id in rows && rows[id].status.ACTIVE? && rows[id].error.None?
    ensures Process(rows, id, now, later, r).Some? <==> Recordable(r)
    ensures Recordable(r) ==>
      var rows' := Process(rows, id, now, later, r).value;
      && rows'.Keys == rows.Keys
      && (forall other :: other in rows && other != id ==> rows'[other] == rows[other])
      && Terminal(rows'[id]) && CheckConstraint(rows'[id])
      && rows'[id].pid == rows[id].pid && rows'[id].added == rows[id].added && rows'[id].package == rows[id].package
      && (rows'[id].status.COMPLETED? <==> r.Returned? && r.verdict.Completed? && r.results.Some?)
      && (rows'[id].status.COMPLETED? ==> rows'[id].result == r.results && rows'[id].error.None?)
      && (rows'[id].status.FAILED? ==> rows'[id].error == Some(FinalError(r)))
  {
  }

  /** A failure reported without an error text is written only through the
      error handler: the database rejects the first write, because the row has
      no error yet.  On a row that already has one, the first write is accepted. */
  lemma FailureWithoutErrorText(rows: Table, id: RowId, now: Time, error: Option<string>, results: string)
    requires id in rows && (error.None? || error.value == "")
    ensures WriteResult(rows, id, now, Returned(Failed, error, Some(results))).Failure? <==> rows[id].error.None?
  {
  }

  // ----- The manager's statements -----

  function TimeOutRow(rows: Table, id: RowId, now: Time, message: string): Table {
    if id in rows && rows[id].status.ACTIVE? then
      rows[id := rows[id].(status := FAILED, completed := Some(now), error := Some(message))]
    else rows
  }

  function Requeue(t: Task): Task {
    t.(status := QUEUED, started := None, pid := None)
  }

  predicate HeldByAny(t: Task, pids: seq<Pid>) {
    t.status.ACTIVE? && t.pid.Some? && t.pid.value in pids
  }

  function ResetRows(rows: Table, pids: seq<Pid>): Table {
    map id | id in rows :: if HeldByAny(rows[id], pids) then Requeue(rows[id]) else rows[id]
  }

  function HeldRows(rows: Table, pids: seq<Pid>): set<RowId> {
    set id | id in rows && HeldByAny(rows[id], pids)
  }

  // ----- The bulk task's progress messages -----

  /** What `SELECT id FROM task WHERE pid = :pid AND status = 'ACTIVE' LIMIT 1` may return. */
  predicate Finds(rows: Table, pid: Pid, found: Option<RowId>) {
    if found.Some? then found.value in rows && HeldBy(rows[found.value], pid)
    else forall id :: id in rows ==> !HeldBy(rows[id], pid)
  }

  function SaveProgress(rows: Table, id: RowId, json: string): Table {
    if id in rows then rows[id := rows[id].(result := Some(json))] else rows
  }
}
