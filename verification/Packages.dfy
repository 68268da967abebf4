/** Verification tasks of a package: creating them, and restarting them. */
module Packages {
  import opened Wrappers
  import opened TaskTable

  datatype Package = Package(filename: string, committee: Option<string>, signature: Option<string>)

  datatype Slot = Slot(id: RowId, added: Time)

  const BATCH: nat := 7

  /** BATCH distinct row ids, none of them used before. */
  predicate FreshSlots(slots: seq<Slot>, used: set<RowId>) {
    && |slots| == BATCH
    && (forall i :: 0 <= i < |slots| ==> slots[i].id !in used)
    && (forall i, j :: 0 <= i < j < |slots| ==> slots[i].id != slots[j].id)
  }

  function SlotIds(slots: seq<Slot>): set<RowId> {
    set i | 0 <= i < |slots| :: slots[i].id
  }

  predicate Ready(p: Package) {
    p.committee.Some? && p.signature.Some?
  }

  function NewTask(taskType: string, args: TaskArgs, added: Time, package: Option<string>): Task {
    Task(QUEUED, taskType, args, added, None, None, None, None, None, package)
  }

  const VERIFICATION_TYPES: seq<string> := [
    "verify_archive_integrity", "verify_archive_structure", "verify_signature", "verify_license_files",
    "verify_license_headers", "verify_rat_license", "generate_cyclonedx_sbom"]

  /** The arguments name the stored file: under the key "path", or in the list. */
  predicate Names(args: TaskArgs, path: string) {
    match args
    case DictArgs(fields) => "path" in fields && fields["path"] == Str(path)
    case ListArgs(items) => path in items
  }

  /** The seven verification tasks of the package stored under `sha`. */
  function VerificationTask(sha: string, p: Package, k: nat, added: Time): (t: Task)
    requires Ready(p) && k < BATCH
    ensures FreshTask(t) && t.package == Some(sha) && t.added == added
  {
    NewTask(VERIFICATION_TYPES[k], VerificationArgs("releases/" + sha, p, k), added, Some(sha))
  }

  function VerificationArgs(path: string, p: Package, k: nat): TaskArgs
    requires Ready(p) && k < BATCH
  {
    match k
    case 0 => DictArgs(map["path" := Str(path), "chunk_size" := Num(4096)])
    case 1 => ListArgs([path, p.filename])
    case 2 => ListArgs([p.committee.value, path, "releases/" + p.signature.value])
    case _ => ListArgs([path])
  }

  /** They are of seven different types, each about that package's file; and a
      worker finds the handler for each by its type and the shape of its
      arguments, so that none of them ends as an unknown type. */
  lemma VerificationTasks(sha: string, p: Package, k: nat, other: nat, added: Time, handler: Outcome)
    requires Ready(p) && k < BATCH && other < BATCH
    ensures
      var t := VerificationTask(sha, p, k, added);
      && t.taskType == VERIFICATION_TYPES[k] && (VERIFICATION_TYPES[other] == VERIFICATION_TYPES[k] <==> other == k)
      && Names(t.args, "releases/" + sha)
      && Dispatch(t.taskType, t.args, handler) == handler
      && (t.taskType == "verify_archive_integrity" ==>
            t.args.DictArgs? && t.args.fields.Keys == {"path", "chunk_size"} && t.args.fields["chunk_size"] == Num(4096))
      && (t.taskType == "verify_archive_integrity" ==> t.args.fields["path"] == Str("releases/" + sha))
      && (t.taskType == "verify_archive_structure" ==> t.args == ListArgs(["releases/" + sha, p.filename]))
      && (t.taskType == "verify_signature" ==>
            t.args == ListArgs([p.committee.value, "releases/" + sha, "releases/" + p.signature.value]))
      && (t.taskType !in {"verify_archive_integrity", "verify_archive_structure", "verify_signature"} ==>
            t.args == ListArgs(["releases/" + sha]))
  {
    TypesDiffer(k, other);
    TypeIsHandled(k);
    TypesAre(k);
    ArgsName("releases/" + sha, p, k);
  }

  lemma ArgsName(path: string, p: Package, k: nat)
    requires Ready(p) && k < BATCH
    ensures Names(VerificationArgs(path, p, k), path)
  {
    if k == 2 {
      assert [p.committee.value, path, "releases/" + p.signature.value][1] == path;
    }
  }

  lemma TypesAre(k: nat)
    requires k < BATCH
    ensures VERIFICATION_TYPES[k] == "verify_archive_integrity" <==> k == 0
    ensures VERIFICATION_TYPES[k] == "verify_archive_structure" <==> k == 1
    ensures VERIFICATION_TYPES[k] == "verify_signature" <==> k == 2
  {
    TypesDiffer(k, 0);
    TypesDiffer(k, 1);
    TypesDiffer(k, 2);
  }

  /** Length and one character tell the types apart. */
  lemma TypesDiffer(k: nat, other: nat)
    requires k < BATCH && other < BATCH
    ensures VERIFICATION_TYPES[k] == VERIFICATION_TYPES[other] <==> k == other
  {
    TypeMarks(k);
    TypeMarks(other);
  }

  lemma TypeMarks(k: nat)
    requires k < BATCH
    ensures var t := VERIFICATION_TYPES[k];
      && |t| == [24, 24, 16, 20, 22, 18, 23][k] && (k == 0 ==> t[15] == 'i') && (k == 1 ==> t[15] == 's')
  {
  }

  lemma TypeIsHandled(k: nat)
    requires k < BATCH
    ensures VERIFICATION_TYPES[k] in if k == 0 then DICT_HANDLERS else LIST_HANDLERS
  {
  }

  /** The first n of the new rows. */
  function FirstRows(sha: string, p: Package, slots: seq<Slot>, n: nat): (rows: Table)
    requires Ready(p) && FreshSlots(slots, {}) && n <= |slots|
    ensures rows.Keys == set i | 0 <= i < n :: slots[i].id
    ensures forall id :: id in rows ==> FreshTask(rows[id]) && rows[id].package == Some(sha)
  {
    if n == 0 then map[]
    else FirstRows(sha, p, slots, n - 1)[slots[n - 1].id := VerificationTask(sha, p, n - 1, slots[n - 1].added)]
  }

  function NewRows(sha: string, p: Package, slots: seq<Slot>): (rows: Table)
    requires Ready(p) && FreshSlots(slots, {})
    ensures rows.Keys == SlotIds(slots)
    ensures forall id :: id in rows ==> FreshTask(rows[id]) && rows[id].package == Some(sha)
  {
    FirstRows(sha, p, slots, |slots|)
  }

  lemma OneMoreRow(sha: string, p: Package, slots: seq<Slot>, n: nat)
    requires Ready(p) && FreshSlots(slots, {}) && 0 < n <= |slots|
    ensures FirstRows(sha, p, slots, n) ==
      FirstRows(sha, p, slots, n - 1)[slots[n - 1].id := VerificationTask(sha, p, n - 1, slots[n - 1].added)]
  {
  }

  /** The new rows are the seven tasks, one in each slot. */
  lemma {:induction false} NewRowAt(sha: string, p: Package, slots: seq<Slot>, n: nat, k: nat)
    requires Ready(p) && FreshSlots(slots, {}) && k < n <= |slots|
    ensures slots[k].id in FirstRows(sha, p, slots, n)
    ensures FirstRows(sha, p, slots, n)[slots[k].id] == VerificationTask(sha, p, k, slots[k].added)
  {
    OneMoreRow(sha, p, slots, n);
    if k < n - 1 {
      assert slots[k].id != slots[n - 1].id;
      NewRowAt(sha, p, slots, n - 1, k);
    }
  }

  function RowsOf(rows: Table, sha: string): set<RowId> {
    set id | id in rows && rows[id].package == Some(sha)
  }

  function UnfinishedOf(rows: Table, sha: string): set<RowId> {
    set id | id in rows && rows[id].package == Some(sha) && Unfinished(rows[id])
  }

  /** The answer to a request: turned away because tasks are in progress, stopped
      by a FlashError, or carried out. */
  datatype Reply = InProgress | Flash(message: string) | Accepted

  function CreateTasks(rows: Table, sha: string, p: Package, slots: seq<Slot>): (r: Result<Table, string>)
    requires FreshSlots(slots, {})
  {
    if p.committee.None? then Failure("Could not determine committee for package")
    else if p.signature.None? then Failure("Package has no signature")
    else Success(rows + NewRows(sha, p, slots))
  }

  /** POST /package/check. */
  function Check(rows: Table, packages: map<string, Package>, sha: string, slots: seq<Slot>): (Reply, Table)
    requires FreshSlots(slots, {})
  {
    if sha !in packages then (Flash("Package not found"), rows)
    else if UnfinishedOf(rows, sha) != {} then (InProgress, rows)
    else
      match CreateTasks(rows, sha, packages[sha], slots)
      case Success(rows') => (Accepted, rows')
      case Failure(m) => (Flash(m), rows)
  }

  /** POST /package/check/restart.  The handler returns from inside the
      transaction, so the deletions are committed even when creation fails. */
  function Restart(rows: Table, packages: map<string, Package>, sha: string, slots: seq<Slot>): (Reply, Table)
    requires FreshSlots(slots, {})
  {
    if sha !in packages then (Flash("Package not found"), rows)
    else if UnfinishedOf(rows, sha) != {} then (InProgress, rows)
    else
      var kept := rows - RowsOf(rows, sha);
      match CreateTasks(kept, sha, packages[sha], slots)
      case Success(rows') => (Accepted, rows')
      case Failure(m) => (Flash(m), kept)
  }

  /** When a request is turned away and why, in the order in which it is looked at. */
  lemma Replies(rows: Table, packages: map<string, Package>, sha: string, slots: seq<Slot>)
    requires FreshSlots(slots, {})
    ensures Check(rows, packages, sha, slots).0 == Restart(rows, packages, sha, slots).0
    ensures
      var reply := Check(rows, packages, sha, slots).0;
      && (reply == Flash("Package not found") <==> sha !in packages)
      && (reply == InProgress <==>
            sha in packages && exists id :: id in rows && rows[id].package == Some(sha)
                                            && (rows[id].status == QUEUED || rows[id].status == ACTIVE))
      && (sha in packages && reply != InProgress && packages[sha].committee.None? ==>
            reply == Flash("Could not determine committee for package"))
      && (sha in packages && reply != InProgress && packages[sha].committee.Some? && packages[sha].signature.None? ==>
            reply == Flash("Package has no signature"))
      && (sha in packages && reply != InProgress && packages[sha].committee.Some? && packages[sha].signature.Some? ==>
            reply == Accepted)
  {
    assert UnfinishedOf(rows, sha) == {} <==>
      forall id :: id in rows && rows[id].package == Some(sha) ==> !(rows[id].status == QUEUED || rows[id].status == ACTIVE) by {
      assert forall id :: id in UnfinishedOf(rows, sha) <==>
        id in rows && rows[id].package == Some(sha) && (rows[id].status == QUEUED || rows[id].status == ACTIVE);
    }
    Messages();
  }

  lemma Messages()
    ensures "Package not found" != "Could not determine committee for package" && "Package not found" != "Package has no signature"
  {
    assert "Package not found"[8] == 'n' && "Package has no signature"[8] == 'h';
    assert "Package not found"[0] == 'P' && "Could not determine committee for package"[0] == 'C';
  }
}
