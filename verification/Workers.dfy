/** The database, the operating system and the code that worker processes and
    web requests run on them.  Every method is shown to take steps of the
    protocol and nothing else, whatever the other processes do while it waits. */
module Workers {
  import opened Wrappers
  import opened TaskTable
  import opened Packages
  import opened Protocol
  import opened Invariant
  import opened Runs

  lemma {:induction false} OldestExists(rows: Table, some: set<RowId>) returns (oldest: RowId)
    requires some != {} && some <= Queued(rows)
    ensures oldest in some && forall id :: id in some ==> rows[oldest].added <= rows[id].added
    decreases some
  {
    var id :| id in some;
    var rest := some - {id};
    if rest == {} {
      oldest := id;
    } else {
      oldest := OldestExists(rows, rest);
      if rows[id].added < rows[oldest].added {
        oldest := id;
      }
    }
    assert forall other :: other in some ==> other == id || other in rest;
  }

  lemma PlusUpdate(a: Table, b: Table, id: RowId, t: Task)
    ensures (a + b)[id := t] == a + b[id := t]
  {
  }

  /** A worker with an exception to record can always record it. */
  lemma ErrorCanBeRecorded(c: Config, s: State, pid: Pid)
    requires Reached(c, s) && pid in s.world.procs && s.world.procs[pid].stage.Handling?
    ensures CanAct(s.world, HandleError(pid))
  {
    var w := s.world;
    ReachedIsSafe(c, s);
    assert ProcOk(w, pid);
  }

  /** A finished worker has ended its task. */
  lemma EndsItsTask(c: Config, s: State, pid: Pid)
    requires Reached(c, s) && pid in s.world.procs && s.world.procs[pid].stage.Finished?
    ensures var w := s.world;
      && w.procs[pid].task.Some?
      && (w.procs[pid].task.value in w.rows ==>
            Terminal(w.rows[w.procs[pid].task.value]) && CheckConstraint(w.rows[w.procs[pid].task.value]))
  {
    var w := s.world;
    ReachedIsSafe(c, s);
    assert ProcOk(w, pid);
  }

  /** A look-up by pid can only find the row that the process claimed. */
  lemma OwnLookUp(c: Config, s: State, pid: Pid)
    requires Reached(c, s) && pid in s.world.procs
    ensures s.world.procs[pid].cached.Some? ==> s.world.procs[pid].cached == s.world.procs[pid].task
    ensures forall id :: id in s.world.rows && HeldBy(s.world.rows[id], pid) ==> s.world.procs[pid].task == Some(id)
  {
    ReachedIsSafe(c, s);
    assert ProcOk(s.world, pid);
    forall id | id in s.world.rows && HeldBy(s.world.rows[id], pid) ensures s.world.procs[pid].task == Some(id) {
      assert HolderOk(s.world, id);
    }
  }

  predicate Acts(e: Event, pid: Pid) {
    e.Env? && Actor(e.action) == Some(pid)
  }

  lemma KnownRow(c: Config, s: State, id: RowId)
    requires Reached(c, s) && id in s.world.rows
    ensures id in s.world.used
  {
    ReachedIsSafe(c, s);
  }

  /** Only its own steps change a process. */
  lemma SparesOthers(c: Config, s: State, e: Event, pid: Pid)
    requires Enabled(c, s, e) && !Acts(e, pid) && pid in s.world.procs
    ensures pid in Next(c, s, e).world.procs && Next(c, s, e).world.procs[pid] == s.world.procs[pid]
  {
  }

  predicate HasText(error: Option<string>) {
    error.Some? && error.value != ""
  }

  /** No row appears or goes, and none but `id` changes. */
  ghost predicate SameExcept(rows: Table, rows': Table, id: RowId) {
    rows'.Keys == rows.Keys && forall other :: other in rows && other != id ==> rows'[other] == rows[other]
  }

  /** The columns that say what the task is and who claimed it when. */
  predicate SameClaim(t: Task, t': Task) {
    && t'.taskType == t.taskType && t'.args == t.args && t'.package == t.package
    && t'.added == t.added && t'.started == t.started && t'.pid == t.pid
  }

  /** The rows that a result write leaves are those of the protocol. */
  lemma ResultIsWritten(rows: Table, rows': Table, id: RowId, now: Time, r: Outcome, raised: Option<Exn>)
    requires r.Raised? ==> rows' == rows && raised == Some(Plain(r.message))
    requires r.RaisedTaskError? ==> rows' == rows && raised == Some(TaskError(r.message, r.payload))
    requires r.Returned? ==>
      && (raised.Some? <==>
            r.results.None? || (id in rows && r.verdict.Failed? && !HasText(r.error) && rows[id].error.None?))
      && (raised.Some? ==> rows' == rows && raised.value == Plain(if r.results.None? then NOT_SERIALISABLE else CHECK_FAILED))
      && (raised.None? ==> SameExcept(rows, rows', id))
      && (raised.None? && id in rows ==>
            && rows'[id].status == StatusOf(r.verdict) && rows'[id].completed == Some(now) && rows'[id].result == r.results
            && rows'[id].error == (if r.verdict.Failed? && HasText(r.error) then r.error else rows[id].error)
            && SameClaim(rows[id], rows'[id]))
    ensures WriteResult(rows, id, now, r) == if raised.None? then Success(rows') else Failure(raised.value)
  {
    if r.Returned? && raised.None? {
      if id in rows {
        assert rows' == rows[id := rows'[id]];
      } else {
        assert rows' == rows;
      }
    }
  }

  lemma ErrorIsWritten(rows: Table, rows': Table, id: RowId, now: Time, e: Exn)
    requires !(e.TaskError? && e.payload.None?) && SameExcept(rows, rows', id)
    requires id in rows ==>
      && rows'[id].status == FAILED && rows'[id].completed == Some(now) && rows'[id].error == Some(e.message)
      && rows'[id].result == (if e.TaskError? then e.payload else rows[id].result)
      && SameClaim(rows[id], rows'[id])
    ensures WriteError(rows, id, now, e) == Some(rows')
  {
    if id in rows {
      assert rows' == rows[id := rows'[id]];
    } else {
      assert rows' == rows;
    }
  }

  /** How a worker records an outcome, with or without the error handler. */
  function Recording(pid: Pid, r: Outcome, raised: bool): seq<Action> {
    [Respond(pid, r)] + if raised then [HandleError(pid)] else []
  }

  class Cluster {
    // The task and package tables of the SQLite file.
    var rows: Table
    var used: set<RowId>
    var packages: map<string, Package>
    // The operating system's processes.
    var procs: map<Pid, Proc>
    var clock: Time
    var tally: Tally
    // What the rest of the system attempts at each of the coming awaits; an
    // attempt that is not possible when its turn comes is passed over.
    var script: seq<seq<Event>>

    constructor (rows: Table, used: set<RowId>, packages: map<string, Package>, script: seq<seq<Event>>)
      ensures World() == Protocol.World(rows, used, map[], packages, 0, Tally(|Queued(rows)|, 0, 0))
      ensures this.script == script
    {
      this.rows, this.used, this.packages, this.script := rows, used, packages, script;
      procs, clock, tally := map[], 0, Tally(|Queued(rows)|, 0, 0);
    }

    function World(): World
      reads this
    {
      Protocol.World(rows, used, procs, packages, clock, tally)
    }

    /** A worker waits: everyone else goes on. */
    method Await(c: Config, m: Manager, pid: Pid) returns (m': Manager)
      modifies this
      ensures FollowsOwn(c, State(old(World()), m), State(World(), m'), pid, [])
      ensures pid in old(procs) ==> pid in procs && procs[pid] == old(procs)[pid]
    {
      m' := m;
      ghost var s := State(World(), m);
      Stays(c, s, pid);
      if script != [] {
        var attempts := script[0];
        script := script[1..];
        for i := 0 to |attempts|
          invariant FollowsOwn(c, s, State(World(), m'), pid, [])
          invariant pid in old(procs) ==> pid in procs && procs[pid] == old(procs)[pid]
        {
          var e := attempts[i];
          if !Acts(e, pid) && Enabled(c, State(World(), m'), e) {
            ghost var t := State(World(), m');
            OneOwnStep(c, t, e, pid);
            FollowsOn(c, s, t, Next(c, t, e), pid, [], []);
            if pid in procs {
              SparesOthers(c, t, e, pid);
            }
            m' := Perform(c, m', e);
          }
        }
      }
    }

    /** The manager waits: everyone else goes on. */
    method AwaitOthers(c: Config, m: Manager)
      modifies this
      ensures Proceeds(c, State(old(World()), m), State(World(), m))
    {
      ghost var s := State(World(), m);
      Stays(c, s, 1);
      if script != [] {
        var attempts := script[0];
        script := script[1..];
        for i := 0 to |attempts|
          invariant Proceeds(c, s, State(World(), m))
        {
          var e := attempts[i];
          if e.Env? && Enabled(c, State(World(), m), e) {
            ghost var t := State(World(), m);
            OneStep(c, t, e);
            ProceedsOn(c, s, t, Next(c, t, e));
            var m' := Perform(c, m, e);
          }
        }
      }
    }

    method Perform(c: Config, m: Manager, e: Event) returns (m': Manager)
      requires Enabled(c, State(World(), m), e)
      modifies this`rows, this`used, this`packages, this`procs, this`clock, this`tally
      ensures State(World(), m') == Next(c, State(old(World()), m), e)
    {
      var next := Next(c, State(World(), m), e);
      rows, used, packages := next.world.rows, next.world.used, next.world.packages;
      procs, clock, tally := next.world.procs, next.world.clock, next.world.tally;
      m' := next.mgr;
    }

    /** The operating system creates a process. */
    method Fork() returns (pid: Pid)
      modifies this`procs
      ensures pid !in old(procs) && procs == old(procs)[pid := Proc(Idle, None, None)]
    {
      ghost var unused := FreshPid(procs.Keys);
      assert unused !in procs.Keys;
      pid :| pid !in procs.Keys;
      procs := procs[pid := Proc(Idle, None, None)];
    }

    // ----- atr/worker.py -----

    /** Claims the oldest queued task, if there is one: the row becomes ACTIVE, with
        the present time and the process's pid, and keeps every other column; no other
        row changes. */
    method TaskNextClaim(pid: Pid) returns (claimed: Option<RowId>)
      requires pid in procs && procs[pid].stage.Idle?
      modifies this`rows, this`procs, this`tally
      ensures claimed.None? ==> World() == old(World()) && forall id :: id in rows ==> !rows[id].status.QUEUED?
      ensures claimed.Some? ==>
        && CanAct(old(World()), Claim(pid, claimed.value))
        && World() == Act(old(World()), Claim(pid, claimed.value))
      ensures claimed.Some? ==>
        && claimed.value in old(rows) && old(rows)[claimed.value].status.QUEUED?
        && (forall id :: id in old(rows) && old(rows)[id].status.QUEUED? ==> old(rows)[claimed.value].added <= old(rows)[id].added)
        && SameExcept(old(rows), rows, claimed.value)
        && var row, row' := old(rows)[claimed.value], rows[claimed.value];
        && row'.status.ACTIVE? && row'.started == Some(clock) && row'.pid == Some(pid)
        && row'.taskType == row.taskType && row'.args == row.args && row'.package == row.package && row'.added == row.added
        && row'.completed == row.completed && row'.result == row.result && row'.error == row.error
      ensures claimed.Some? ==> procs == old(procs)[pid := Proc(Executing, claimed, None)]
    {
      if id :| id in rows.Keys && OldestQueued(rows, id) {
        rows := ClaimRow(rows, id, pid, clock);
        procs := procs[pid := Proc(Executing, Some(id), None)];
        tally := tally.(claimed := tally.claimed + 1);
        return Some(id);
      }
      if Queued(rows) != {} {
        var oldest := OldestExists(rows, Queued(rows));
        assert OldestQueued(rows, oldest) && oldest in rows.Keys;
      }
      forall id | id in rows ensures !rows[id].status.QUEUED? {
        assert id !in Queued(rows);
      }
      claimed := None;
    }

    /** Stores what the handler returned.  It raises, and stores nothing, when the
        results cannot be serialised or when the row would be FAILED without an
        error text, new or old.  Otherwise the row, if it still exists and
        whatever its status, gets the verdict, the time, the results and, for a failure
        that has one, the error text; all else stays. */
    method TaskResultProcess(id: RowId, r: Outcome) returns (raised: Option<Exn>)
      requires r.Returned?
      modifies this`rows
      ensures raised.Some? <==>
        r.results.None? || (id in old(rows) && r.verdict.Failed? && !HasText(r.error) && old(rows)[id].error.None?)
      ensures raised.Some? ==> rows == old(rows) && raised.value == Plain(if r.results.None? then NOT_SERIALISABLE else CHECK_FAILED)
      ensures raised.None? ==> SameExcept(old(rows), rows, id)
      ensures raised.None? && id in rows ==>
        && rows[id].status == (if r.verdict.Completed? then COMPLETED else FAILED)
        && rows[id].completed == Some(clock) && rows[id].result == r.results
        && rows[id].error == (if r.verdict.Failed? && HasText(r.error) then r.error else old(rows)[id].error)
        && SameClaim(old(rows)[id], rows[id])
    {
      if r.results.None? {
        return Some(Plain(NOT_SERIALISABLE));
      }
      if id in rows {
        var t := rows[id].(status := StatusOf(r.verdict), completed := Some(clock), result := r.results);
        if r.verdict.Failed? && r.error.Some? && r.error.value != "" {
          t := t.(error := r.error);
        }
        if !CheckConstraint(t) {
          return Some(Plain(CHECK_FAILED));
        }
        rows := rows[id := t];
      }
      raised := None;
    }

    /** Records an exception against the row, which then is FAILED with the
        exception's text, and for a task error with its payload; all else stays.
        When that payload cannot be serialised it raises in turn and records nothing. */
    method TaskErrorHandle(id: RowId, e: Exn) returns (recorded: bool)
      modifies this`rows
      ensures recorded <==> !(e.TaskError? && e.payload.None?)
      ensures !recorded ==> rows == old(rows)
      ensures SameExcept(old(rows), rows, id)
      ensures recorded && id in rows ==>
        && rows[id].status == FAILED && rows[id].completed == Some(clock) && rows[id].error == Some(e.message)
        && rows[id].result == (if e.TaskError? then e.payload else old(rows)[id].result)
        && SameClaim(old(rows)[id], rows[id])
    {
      if e.TaskError? && e.payload.None? {
        return false;
      }
      if id in rows {
        var t := rows[id].(status := FAILED, completed := Some(clock), error := Some(e.message));
        match e
        case TaskError(_, payload) => rows := rows[id := t.(result := payload)];
        case Plain(_) => rows := rows[id := t];
      }
      recorded := true;
    }

    /** The first attempt to record an outcome; an exception is left to be handled. */
    method Attempt(c: Config, m: Manager, pid: Pid, r: Outcome) returns (raised: Option<Exn>)
      requires CanAct(World(), Respond(pid, r))
      modifies this`rows, this`procs
      ensures FollowsOwn(c, State(old(World()), m), State(World(), m), pid, [Respond(pid, r)])
      ensures pid in procs && procs[pid].task == old(procs)[pid].task
      ensures procs[pid].stage == if raised.None? then Finished else Handling(raised.value)
    {
      ghost var s := State(World(), m);
      match r {
        case Raised(message) => raised := Some(Plain(message));
        case RaisedTaskError(message, payload) => raised := Some(TaskError(message, payload));
        case Returned(_, _, _) => raised := TaskResultProcess(procs[pid].task.value, r);
      }
      ResultIsWritten(s.world.rows, rows, procs[pid].task.value, clock, r, raised);
      procs := procs[pid := procs[pid].(stage := if raised.None? then Finished else Handling(raised.value))];
      assert State(World(), m) == Next(c, s, Env(Respond(pid, r)));
      OneOwnStep(c, s, Env(Respond(pid, r)), pid);
    }

    /** The second attempt. */
    method Handle(c: Config, m: Manager, pid: Pid, e: Exn)
      requires CanAct(World(), HandleError(pid)) && procs[pid].stage == Handling(e)
      modifies this`rows, this`procs
      ensures FollowsOwn(c, State(old(World()), m), State(World(), m), pid, [HandleError(pid)])
      ensures pid in procs && procs[pid].task == old(procs)[pid].task && procs[pid].stage.Finished?
    {
      ghost var s := State(World(), m);
      var recorded := TaskErrorHandle(procs[pid].task.value, e);
      ErrorIsWritten(s.world.rows, rows, procs[pid].task.value, clock, e);
      procs := procs[pid := procs[pid].(stage := Finished)];
      assert State(World(), m) == Next(c, s, Env(HandleError(pid)));
      OneOwnStep(c, s, Env(HandleError(pid)), pid);
    }

    /** Runs the handler of a claimed task and records how it ended, in one
        transaction or, when that raises an exception, in two.  Whatever the handler
        does, and whatever the rest of the system does meanwhile, the worker is
        left finished and its row, if it still exists, has ended. */
    method TaskProcess(c: Config, m: Manager, pid: Pid, id: RowId, taskType: string, args: TaskArgs, handler: Outcome)
      returns (m': Manager, ghost own: seq<Action>)
      requires Reached(c, State(World(), m))
      requires pid in procs && procs[pid].stage.Executing? && procs[pid].task == Some(id)
      requires Recordable(handler)
      modifies this
      ensures FollowsOwn(c, State(old(World()), m), State(World(), m'), pid, own)
      ensures own == Recording(pid, Dispatch(taskType, args, handler), false)
           || own == Recording(pid, Dispatch(taskType, args, handler), true)
      ensures pid in procs && procs[pid].stage.Finished? && procs[pid].task == Some(id)
      ensures id in rows ==> Terminal(rows[id]) && CheckConstraint(rows[id])
    {
      ghost var s := State(World(), m);
      var r := Dispatch(taskType, args, handler);
      // The handler runs.
      m' := Await(c, m, pid);
      ghost var t := State(World(), m');
      var raised := Attempt(c, m', pid, r);
      own := Recording(pid, r, raised.Some?);
      FollowsOn(c, s, t, State(World(), m'), pid, [], [Respond(pid, r)]);
      if raised.Some? {
        t := State(World(), m');
        m' := Await(c, m', pid);
        FollowsOn(c, s, t, State(World(), m'), pid, [Respond(pid, r)], []);
        t := State(World(), m');
        ReachedOn(c, s, t);
        ErrorCanBeRecorded(c, t, pid);
        Handle(c, m', pid, raised.value);
        FollowsOn(c, s, t, State(World(), m'), pid, [Respond(pid, r)], [HandleError(pid)]);
      }
      ReachedOn(c, s, State(World(), m'));
      EndsItsTask(c, State(World(), m'), pid);
    }

    /** A worker's whole working life: one claim and one recording of what the
        handler for that task came to, after which the task has ended. */
    ghost predicate Worked(pid: Pid, id: RowId, handler: Outcome, own: seq<Action>)
      reads this
    {
      && pid in procs && procs[pid].stage.Finished? && procs[pid].task == Some(id)
      && own != [] && own[0] == Claim(pid, id)
      && (id in rows ==>
            && Terminal(rows[id])
            && var r := Dispatch(rows[id].taskType, rows[id].args, handler);
               own[1..] == Recording(pid, r, false) || own[1..] == Recording(pid, r, true))
    }

    /** The worker's main loop, cut off after `polls` attempts to claim a task: it
        claims at most one task, processes it, and stops. */
    method WorkerLoopRun(c: Config, m: Manager, pid: Pid, handler: Outcome, polls: nat)
      returns (m': Manager, claimed: Option<RowId>, ghost own: seq<Action>)
      requires Reached(c, State(World(), m))
      requires pid in procs && procs[pid].stage.Idle? && Recordable(handler)
      modifies this
      ensures FollowsOwn(c, State(old(World()), m), State(World(), m'), pid, own)
      ensures pid in procs
      ensures claimed.None? ==> own == [] && procs[pid].stage.Idle?
      ensures claimed.Some? ==> Worked(pid, claimed.value, handler, own)
    {
      ghost var s := State(World(), m);
      m', claimed, own := m, None, [];
      Stays(c, s, pid);
      var left := polls;
      while 0 < left && claimed.None?
        invariant FollowsOwn(c, s, State(World(), m'), pid, own)
        invariant pid in procs
        invariant claimed.None? ==> own == [] && procs[pid].stage.Idle?
        invariant claimed.Some? ==> Worked(pid, claimed.value, handler, own)
        decreases left
      {
        ghost var t := State(World(), m');
        claimed := TaskNextClaim(pid);
        if claimed.Some? {
          var id := claimed.value;
          OneOwnStep(c, t, Env(Claim(pid, id)), pid);
          FollowsOn(c, s, t, State(World(), m'), pid, [], [Claim(pid, id)]);
          t := State(World(), m');
          ReachedOn(c, s, t);
          ghost var more;
          m', more := TaskProcess(c, m', pid, id, rows[id].taskType, rows[id].args, handler);
          FollowsOn(c, s, t, State(World(), m'), pid, [Claim(pid, id)], more);
          FollowsEvolves(c, t, State(World(), m'), pid, more);
          KnownRow(c, t, id);
          own := [Claim(pid, id)] + more;
        } else {
          // Wait 100ms.
          m' := Await(c, m', pid);
          FollowsOn(c, s, t, State(World(), m'), pid, [], []);
        }
        left := left - 1;
      }
    }

    // ----- The bulk task's progress messages, atr/tasks/bulk.py -----

    /** The id of this process's task: the cached one, or what a look-up by pid finds. */
    method DatabaseTaskIdGet(pid: Pid) returns (id: Option<RowId>)
      requires pid in procs && procs[pid].stage.Executing? && procs[pid].task.Some?
      modifies this`procs
      ensures procs == old(procs)[pid := old(procs)[pid].(cached := id)]
      ensures if old(procs)[pid].cached.Some? then id == old(procs)[pid].cached
        else CanAct(old(World()), LookUp(pid, id)) && World() == Act(old(World()), LookUp(pid, id))
      ensures old(procs)[pid].cached.None? && id.Some? ==>
        && id.value in rows && rows[id.value].status.ACTIVE? && rows[id.value].pid == Some(pid)
      ensures old(procs)[pid].cached.None? && id.None? ==>
        forall other :: other in rows && rows[other].status.ACTIVE? ==> rows[other].pid != Some(pid)
    {
      if procs[pid].cached.Some? {
        return procs[pid].cached;
      }
      id := None;
      if found :| found in rows.Keys && HeldBy(rows[found], pid) {
        id := Some(found);
      }
      procs := procs[pid := procs[pid].(cached := id)];
    }

    /** Writes a progress message.  It goes to the row this process claimed, as
        long as the process has looked it up while it held the row; otherwise it goes nowhere. */
    method DatabaseMessage(c: Config, m: Manager, pid: Pid, id: RowId, json: string)
      requires Reached(c, State(World(), m))
      requires pid in procs && procs[pid].stage.Executing? && procs[pid].task == Some(id)
      modifies this`procs, this`rows
      ensures Reached(c, State(World(), m))
      ensures SameExcept(old(rows), rows, id)
      ensures id in rows ==>
        (rows[id] ==
           if old(procs)[pid].cached.Some? || (old(rows)[id].status.ACTIVE? && old(rows)[id].pid == Some(pid))
           then old(rows)[id].(result := Some(json)) else old(rows)[id])
    {
      ghost var s := State(World(), m);
      OwnLookUp(c, s, pid);
      var found := DatabaseTaskIdGet(pid);
      if s.world.procs[pid].cached.None? {
        ReachedNext(c, s, Env(LookUp(pid, found)));
      } else {
        assert World() == s.world;
      }
      if found.Some? {
        s := State(World(), m);
        rows := SaveProgress(rows, found.value, json);
        ReachedNext(c, s, Env(Progress(pid, json)));
      }
    }

    // ----- The transactions of atr/routes/package.py -----

    /** The tasks of a package, and whether any is still in progress. */
    method TaskPackageStatusGet(sha: string) returns (tasks: set<RowId>, active: bool)
      ensures tasks == RowsOf(rows, sha) && (active <==> UnfinishedOf(rows, sha) != {})
      ensures forall id :: id in tasks <==> id in rows && rows[id].package == Some(sha)
      ensures active <==> exists id :: id in tasks && (rows[id].status.QUEUED? || rows[id].status.ACTIVE?)
    {
      tasks := RowsOf(rows, sha);
      active := exists id :: id in tasks && (rows[id].status.QUEUED? || rows[id].status.ACTIVE?);
      if active {
        var id :| id in tasks && (rows[id].status.QUEUED? || rows[id].status.ACTIVE?);
        assert id in UnfinishedOf(rows, sha);
      }
    }

    /** Adds the seven verification tasks of a package, or says why it cannot. */
    method TaskVerificationCreate(sha: string, slots: seq<Slot>) returns (error: Option<string>)
      requires sha in packages && FreshSlots(slots, {})
      modifies this`rows
      ensures match CreateTasks(old(rows), sha, packages[sha], slots)
        case Success(rows') => error.None? && rows == rows'
        case Failure(message) => error == Some(message) && rows == old(rows)
    {
      var p := packages[sha];
      if p.committee.None? {
        return Some("Could not determine committee for package");
      }
      if p.signature.None? {
        return Some("Package has no signature");
      }
      AddTasks(sha, slots);
      error := None;
    }

    method AddTasks(sha: string, slots: seq<Slot>)
      requires sha in packages && Ready(packages[sha]) && FreshSlots(slots, {})
      modifies this`rows
      ensures rows == old(rows) + NewRows(sha, packages[sha], slots)
    {
      var p := packages[sha];
      assert old(rows) + map[] == old(rows);
      for i := 0 to |slots|
        invariant rows == old(rows) + FirstRows(sha, p, slots, i)
      {
        var task := VerificationTask(sha, p, i, slots[i].added);
        PlusUpdate(old(rows), FirstRows(sha, p, slots, i), slots[i].id, task);
        rows := rows[slots[i].id := task];
      }
    }

    method RootPackageCheck(sha: string, slots: seq<Slot>) returns (reply: Reply)
      requires CanAct(World(), CheckRequest(sha, slots))
      modifies this`rows, this`used, this`tally
      ensures World() == Act(old(World()), CheckRequest(sha, slots))
      ensures reply == Check(old(rows), packages, sha, slots).0
    {
      if sha !in packages {
        return Flash("Package not found");
      }
      var tasks, active := TaskPackageStatusGet(sha);
      if active {
        return InProgress;
      }
      var error := TaskVerificationCreate(sha, slots);
      if error.Some? {
        return Flash(error.value);
      }
      used, tally := used + SlotIds(slots), tally.(enqueued := tally.enqueued + BATCH);
      reply := Accepted;
    }

    method DeleteTasks(tasks: set<RowId>)
      modifies this`rows
      ensures rows == old(rows) - tasks
    {
      var rest := tasks;
      while rest != {}
        invariant rest <= tasks && rows == old(rows) - (tasks - rest)
        decreases rest
      {
        var task :| task in rest;
        rows := rows - {task};
        rest := rest - {task};
      }
    }

    method RootPackageCheckRestart(sha: string, slots: seq<Slot>) returns (reply: Reply)
      requires CanAct(World(), RestartRequest(sha, slots))
      modifies this`rows, this`used, this`tally
      ensures World() == Act(old(World()), RestartRequest(sha, slots))
      ensures reply == Restart(old(rows), packages, sha, slots).0
    {
      if sha !in packages {
        return Flash("Package not found");
      }
      var tasks, active := TaskPackageStatusGet(sha);
      if active {
        return InProgress;
      }
      DeleteTasks(tasks);
      var error := TaskVerificationCreate(sha, slots);
      if error.Some? {
        reply := Flash(error.value);
        assert (reply, rows) == Restart(old(rows), packages, sha, slots);
        return;
      }
      assert (Accepted, rows) == Restart(old(rows), packages, sha, slots);
      used, tally := used + SlotIds(slots), tally.(enqueued := tally.enqueued + BATCH);
      reply := Accepted;
    }
  }
}
