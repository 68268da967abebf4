/** The worker manager.  Its methods, too, take steps of the protocol and nothing
    else, with the rest of the system going on at every await. */
module Supervisor {
  import opened Wrappers
  import opened TaskTable
  import opened Protocol
  import opened Invariant
  import opened Runs
  import opened Stopping
  import opened Workers

  /** What the manager is doing once a spawn call has returned. */
  function Spawned(d: Duty): Duty
    requires (d.Starting? && 0 < d.left) || d.Refilling?
  {
    if d.Starting? then Starting(d.left - 1, None) else Refilling(d.exited, None)
  }

  /** The row found for a worker, if any, as the protocol names it. */
  ghost predicate Checked(c: Config, s: State, pid: Pid, over: bool, rows: Table) {
    exists found :: Finds(s.world.rows, pid, found) && over == Overdue(c, s.world, found) &&
      rows == if over then TimeOutRow(s.world.rows, found.value, s.world.clock, c.timeoutMessage) else s.world.rows
  }

  ghost predicate HoldsOne(rows: Table, pid: Pid) {
    forall id, other ::
      (id in rows && other in rows && rows[id].status.ACTIVE? && rows[other].status.ACTIVE?
       && rows[id].pid == Some(pid) && rows[other].pid == Some(pid)) ==> id == other
  }

  lemma WorkersHoldOne(c: Config, s: State, pid: Pid)
    requires Reached(c, s)
    ensures HoldsOne(s.world.rows, pid)
  {
    ReachedIsSafe(c, s);
    forall id | id in s.world.rows && s.world.rows[id].status.ACTIVE? && s.world.rows[id].pid == Some(pid)
      ensures pid in s.world.procs && s.world.procs[pid].task == Some(id)
    {
      assert HolderOk(s.world, id);
    }
  }

  /** A list of the elements of a set: list(self.workers.items()). */
  method Listed(workers: set<Pid>) returns (order: seq<Pid>)
    ensures Lists(order, workers)
    ensures |order| == |workers|
  {
    order := [];
    var rest := workers;
    while rest != {}
      invariant Lists(order, workers - rest) && rest <= workers
      invariant |order| + |rest| == |workers|
      decreases rest
    {
      var pid :| pid in rest;
      order, rest := order + [pid], rest - {pid};
    }
  }

  /** No spawn call fails. */
  predicate Reliable(spawnFails: seq<bool>) {
    true !in spawnFails
  }

  function Least(a: nat, b: nat): nat {
    if a <= b then a else b
  }

  predicate FailsNow(spawnFails: seq<bool>) {
    spawnFails != [] && spawnFails[0]
  }

  function LaterFails(spawnFails: seq<bool>): seq<bool> {
    if spawnFails == [] then [] else spawnFails[1..]
  }

  class WorkerManager {
    const minWorkers: nat
    const maxWorkers: nat
    const maxTaskSeconds: Time
    const timeoutMessage: string
    const cluster: Cluster
    var workers: set<Pid>
    var running: bool
    // Whether each of the coming spawn calls fails; those after the list succeed.
    var spawnFails: seq<bool>

    constructor (cluster: Cluster, timeoutMessage: string, spawnFails: seq<bool>, minWorkers: nat := 4, maxWorkers: nat := 8,
                 maxTaskSeconds: Time := 300)
      ensures this.spawnFails == spawnFails
      ensures this.cluster == cluster && !running
      ensures Settings() == Config(minWorkers, maxWorkers, maxTaskSeconds, timeoutMessage)
      ensures Snap(NotStarted) == State(cluster.World(), Manager({}, NotStarted))
    {
      this.cluster, this.timeoutMessage := cluster, timeoutMessage;
      this.minWorkers, this.maxWorkers, this.maxTaskSeconds := minWorkers, maxWorkers, maxTaskSeconds;
      this.spawnFails := spawnFails;
      workers, running := {}, false;
    }

    function Settings(): Config {
      Config(minWorkers, maxWorkers, maxTaskSeconds, timeoutMessage)
    }

    /** The state of the whole system while the manager is doing `d`. */
    ghost function Snap(d: Duty): State
      reads this, cluster
    {
      State(cluster.World(), Manager(workers, d))
    }

    /** The other processes step while the manager awaits. */
    method Await(d: Duty)
      modifies cluster
      ensures Proceeds(Settings(), old(Snap(d)), Snap(d))
    {
      cluster.AwaitOthers(Settings(), Manager(workers, d));
    }

    /** The child exists, and may claim a task, before the manager knows its pid. */
    method CreateProcess(d: Duty) returns (forked: Duty)
      requires CanSpawn(Settings(), Manager(workers, d)) && |workers| < maxWorkers
      modifies cluster
      ensures Proceeds(Settings(), old(Snap(d)), Snap(forked))
      ensures ForkedBy(forked).Some? && forked == d.(forked := ForkedBy(forked))
    {
      ghost var s := Snap(d);
      var pid := cluster.Fork();
      forked := d.(forked := Some(pid));
      OneStep(Settings(), s, Fork(pid));
      ghost var t := Snap(forked);
      Await(forked);
      ProceedsOn(Settings(), s, t, Snap(forked));
    }

    method TrackWorker(d: Duty, forked: Duty)
      requires CanSpawn(Settings(), Manager(workers, d)) && ForkedBy(forked).Some?
      requires forked == d.(forked := ForkedBy(forked))
      modifies this`workers
      ensures workers == old(workers) + {ForkedBy(forked).value}
      ensures Proceeds(Settings(), old(Snap(forked)), Snap(Spawned(d)))
    {
      ghost var s := Snap(forked);
      workers := workers + {ForkedBy(forked).value};
      OneStep(Settings(), s, Track);
    }

    /** Spawns a worker, unless there are max_workers already or the spawn call
        fails; then the pool stays as it is. */
    method SpawnWorker(d: Duty)
      requires CanSpawn(Settings(), Manager(workers, d)) && Reached(Settings(), Snap(d))
      modifies this`workers, this`spawnFails, cluster
      ensures Proceeds(Settings(), old(Snap(d)), Snap(Spawned(d)))
      ensures spawnFails == if |old(workers)| < maxWorkers then LaterFails(old(spawnFails)) else old(spawnFails)
      ensures |workers| == |old(workers)| + if |old(workers)| < maxWorkers && !FailsNow(old(spawnFails)) then 1 else 0
      ensures old(workers) <= workers
    {
      ghost var s := Snap(d);
      var fails := maxWorkers <= |workers|;
      if !fails {
        fails, spawnFails := FailsNow(spawnFails), LaterFails(spawnFails);
      }
      if fails {
        OneStep(Settings(), s, SpawnFail);
        return;
      }
      var forked := CreateProcess(d);
      ghost var t := Snap(forked);
      ReachedOn(Settings(), s, t);
      NotYetTracked(Settings(), t);
      TrackWorker(d, forked);
      ProceedsOn(Settings(), s, t, Snap(Spawned(d)));
    }

    /** Starts the initial workers, unless the manager runs already. */
    method Start()
      requires !running ==> Reached(Settings(), Snap(NotStarted))
      modifies this`workers, this`running, this`spawnFails, cluster
      ensures running
      ensures old(running) ==> workers == old(workers) && cluster.World() == old(cluster.World())
      ensures !old(running) ==> Proceeds(Settings(), old(Snap(NotStarted)), Snap(Sleeping))
      ensures !old(running) ==> |workers| <= Least(minWorkers, maxWorkers)
      ensures !old(running) && Reliable(old(spawnFails)) ==> |workers| == Least(minWorkers, maxWorkers)
    {
      if running {
        return;
      }
      ghost var s := Snap(NotStarted);
      running := true;
      NoneTracked(Settings(), s);
      OneStep(Settings(), s, Protocol.Start);
      ghost var t := Snap(Starting(minWorkers, None));
      ReachedOn(Settings(), s, t);
      SpawnInitial();
      ProceedsOn(Settings(), s, t, Snap(Starting(0, None)));
      t := Snap(Starting(0, None));
      OneStep(Settings(), t, Started);
      ProceedsOn(Settings(), s, t, Snap(Sleeping));
    }

    /** After i turns of the loop that starts the initial workers. */
    ghost predicate Spawning(s: State, i: nat, reliable: bool)
      requires i <= minWorkers
      reads this, cluster
    {
      && Reached(Settings(), s) && Proceeds(Settings(), s, Snap(Starting(minWorkers - i, None)))
      && |workers| <= Least(i, maxWorkers)
      && (reliable ==> Reliable(spawnFails) && |workers| == Least(i, maxWorkers))
    }

    method SpawnOne(i: nat, ghost s: State, ghost reliable: bool)
      requires i < minWorkers && Spawning(s, i, reliable)
      modifies this`workers, this`spawnFails, cluster
      ensures Spawning(s, i + 1, reliable)
    {
      ghost var t := Snap(Starting(minWorkers - i, None));
      ReachedOn(Settings(), s, t);
      NeverFails(spawnFails);
      SpawnWorker(Starting(minWorkers - i, None));
      ProceedsOn(Settings(), s, t, Snap(Starting(minWorkers - i - 1, None)));
    }

    method SpawnInitial()
      requires Reached(Settings(), Snap(Starting(minWorkers, None))) && workers == {}
      modifies this`workers, this`spawnFails, cluster
      ensures Proceeds(Settings(), old(Snap(Starting(minWorkers, None))), Snap(Starting(0, None)))
      ensures |workers| <= Least(minWorkers, maxWorkers)
      ensures Reliable(old(spawnFails)) ==> |workers| == Least(minWorkers, maxWorkers)
    {
      ghost var s, reliable := Snap(Starting(minWorkers, None)), Reliable(spawnFails);
      Stays(Settings(), s, 1);
      for i := 0 to minWorkers
        invariant Spawning(s, i, reliable)
      {
        SpawnOne(i, s, reliable);
      }
    }

    /** Fails the row, if it is still ACTIVE, and signals the worker, which lives on
        for a while.  A row that has ended meanwhile, and all other rows, stay as they are. */
    method TerminateLongRunningTask(id: RowId)
      modifies cluster`rows
      ensures SameExcept(old(cluster.rows), cluster.rows, id)
      ensures id in cluster.rows && !old(cluster.rows)[id].status.ACTIVE? ==> cluster.rows[id] == old(cluster.rows)[id]
      ensures id in cluster.rows && old(cluster.rows)[id].status.ACTIVE? ==>
        && cluster.rows[id].status.FAILED? && cluster.rows[id].completed == Some(cluster.clock)
        && cluster.rows[id].error == Some(timeoutMessage) && cluster.rows[id].result == old(cluster.rows)[id].result
        && SameClaim(old(cluster.rows)[id], cluster.rows[id])
    {
      if id in cluster.rows && cluster.rows[id].status.ACTIVE? {
        cluster.rows := cluster.rows[id :=
          cluster.rows[id].(status := FAILED, completed := Some(cluster.clock), error := Some(timeoutMessage))];
      }
    }

    /** Whether a worker has been at its task for too long: whether the row it holds
        was started more than the time limit ago.  Then the row is failed.  A worker
        never holds more than one row. */
    method CheckTaskDuration(pid: Pid) returns (over: bool)
      modifies cluster`rows
      ensures Checked(Settings(), old(Snap(Sleeping)), pid, over, cluster.rows)
      ensures !over ==> cluster.rows == old(cluster.rows)
      ensures over ==> exists id ::
        && id in old(cluster.rows) && old(cluster.rows)[id].status.ACTIVE? && old(cluster.rows)[id].pid == Some(pid)
        && old(cluster.rows)[id].started.Some? && cluster.clock - old(cluster.rows)[id].started.value > maxTaskSeconds
        && SameExcept(old(cluster.rows), cluster.rows, id) && cluster.rows[id].status.FAILED?
      ensures HoldsOne(old(cluster.rows), pid) ==> (over <==> exists id ::
        && id in old(cluster.rows) && old(cluster.rows)[id].status.ACTIVE? && old(cluster.rows)[id].pid == Some(pid)
        && old(cluster.rows)[id].started.Some? && cluster.clock - old(cluster.rows)[id].started.value > maxTaskSeconds)
    {
      ghost var s := Snap(Sleeping);
      if found :| found in cluster.rows.Keys && HeldBy(cluster.rows[found], pid) {
        assert Finds(s.world.rows, pid, Some(found));
        var started := cluster.rows[found].started;
        over := started.Some? && maxTaskSeconds < cluster.clock - started.value;
        assert over == Overdue(Settings(), s.world, Some(found));
        if over {
          TerminateLongRunningTask(found);
          assert cluster.rows == TimeOutRow(s.world.rows, found, s.world.clock, timeoutMessage) by {
            assert cluster.rows == s.world.rows[found := cluster.rows[found]];
          }
        }
      } else {
        assert Finds(s.world.rows, pid, None);
        over := false;
      }
    }

    /** Spawns workers until there are min_workers, cut off after `turns` turns of
        the loop.  Enough turns fill the pool when min_workers <= max_workers; no
        number of turns does otherwise. */
    method MaintainWorkerPool(exited: seq<Pid>, turns: nat) returns (full: bool)
      requires Reached(Settings(), Snap(Refilling(exited, None)))
      modifies this`workers, this`spawnFails, cluster
      ensures Proceeds(Settings(), old(Snap(Refilling(exited, None))), Snap(Refilling(exited, None)))
      ensures full <==> minWorkers <= |workers|
      ensures |workers| == |old(workers)| || |workers| <= minWorkers
      ensures minWorkers <= maxWorkers && |old(spawnFails)| + minWorkers <= turns ==> full
      ensures maxWorkers < minWorkers && |old(workers)| <= maxWorkers ==> !full
    {
      ghost var s := Snap(Refilling(exited, None));
      Stays(Settings(), s, 1);
      var left := turns;
      while |workers| < minWorkers && 0 < left
        invariant Proceeds(Settings(), s, Snap(Refilling(exited, None)))
        invariant |workers| == |old(workers)| || |workers| <= minWorkers
        invariant |old(workers)| <= maxWorkers ==> |workers| <= maxWorkers
        invariant left <= turns
        invariant minWorkers <= maxWorkers ==> |spawnFails| + turns - left <= |old(spawnFails)| + |workers|
        decreases left
      {
        ghost var t := Snap(Refilling(exited, None));
        ReachedOn(Settings(), s, t);
        SpawnWorker(Refilling(exited, None));
        ProceedsOn(Settings(), s, t, Snap(Refilling(exited, None)));
        left := left - 1;
      }
      full := minWorkers <= |workers|;
    }

    /** Puts back the rows claimed by the given workers: exactly those change, and in
        them only the status, the pid and the start time. */
    method ResetBrokenTasks(exited: seq<Pid>)
      modifies cluster`rows, cluster`tally
      ensures cluster.rows.Keys == old(cluster.rows).Keys
      ensures forall id :: id in cluster.rows ==>
        var row, row' := old(cluster.rows)[id], cluster.rows[id];
        if row.status.ACTIVE? && row.pid.Some? && row.pid.value in exited then
          && row'.status.QUEUED? && row'.pid.None? && row'.started.None?
          && row'.added == row.added && row'.taskType == row.taskType && row'.args == row.args && row'.package == row.package
          && row'.completed == row.completed && row'.result == row.result && row'.error == row.error
        else row' == row
      ensures cluster.tally == old(cluster.tally).(requeued :=
        old(cluster.tally).requeued + |HeldRows(old(cluster.rows), exited)|)
    {
      cluster.tally := cluster.tally.(requeued := cluster.tally.requeued + |HeldRows(cluster.rows, exited)|);
      cluster.rows := ResetRows(cluster.rows, exited);
    }

    /** Checks one worker: whether it runs, and then, after an await, for how long. */
    method CheckWorker(todo: seq<Pid>, exited: seq<Pid>) returns (exited': seq<Pid>)
      requires todo != [] && Reached(Settings(), Snap(Checking(todo, exited, false)))
      modifies cluster
      ensures Proceeds(Settings(), old(Snap(Checking(todo, exited, false))), Snap(Checking(todo[1..], exited', false)))
      ensures exited' == exited || exited' == exited + [todo[0]]
    {
      ghost var s := Snap(Checking(todo, exited, false));
      var pid := todo[0];
      TodoIsTracked(Settings(), s);
      OneStep(Settings(), s, CheckAlive);
      if cluster.procs[pid].stage.Exited? {
        return exited + [pid];
      }
      Await(Checking(todo, exited, true));
      ghost var t := Snap(Checking(todo, exited, true));
      ProceedsOn(Settings(), s, Next(Settings(), s, CheckAlive), t);
      var over := CheckTaskDuration(pid);
      exited' := if over then exited + [pid] else exited;
      ghost var found :| Finds(t.world.rows, pid, found) && over == Overdue(Settings(), t.world, found) &&
        cluster.rows == if over then TimeOutRow(t.world.rows, found.value, t.world.clock, timeoutMessage) else t.world.rows;
      OneStep(Settings(), t, CheckDuration(found));
      ProceedsOn(Settings(), s, t, Snap(Checking(todo[1..], exited', false)));
    }

    /** Checks every worker of the pass in turn. */
    method CheckEach(order: seq<Pid>) returns (exited: seq<Pid>)
      requires Reached(Settings(), Snap(Checking(order, [], false)))
      modifies cluster
      ensures Proceeds(Settings(), old(Snap(Checking(order, [], false))), Snap(Checking([], exited, false)))
    {
      ghost var s := Snap(Checking(order, [], false));
      Stays(Settings(), s, 1);
      exited := [];
      var todo := order;
      while todo != []
        invariant Proceeds(Settings(), s, Snap(Checking(todo, exited, false)))
        decreases |todo|
      {
        ghost var t := Snap(Checking(todo, exited, false));
        ReachedOn(Settings(), s, t);
        exited := CheckWorker(todo, exited);
        todo := todo[1..];
        ProceedsOn(Settings(), s, t, Snap(Checking(todo, exited, false)));
        t := Snap(Checking(todo, exited, false));
        Await(Checking(todo, exited, false));
        ProceedsOn(Settings(), s, t, Snap(Checking(todo, exited, false)));
      }
    }

    /** Forgets the workers that have exited. */
    method PopExited(exited: seq<Pid>)
      modifies this`workers
      ensures Proceeds(Settings(), old(Snap(Checking([], exited, false))), Snap(Refilling(exited, None)))
    {
      ghost var s := Snap(Checking([], exited, false));
      for i := 0 to |exited|
        invariant workers == old(workers) - PidsOf(exited[..i])
      {
        workers := workers - {exited[i]};
      }
      assert exited[..|exited|] == exited;
      OneStep(Settings(), s, Protocol.PopExited);
    }

    /** The last step of a pass. */
    method PutBack(exited: seq<Pid>)
      modifies cluster`rows, cluster`tally
      ensures Proceeds(Settings(), old(Snap(Resetting(exited))), Snap(Sleeping))
    {
      ghost var s := Snap(Resetting(exited));
      ResetBrokenTasks(exited);
      assert cluster.rows == ResetRows(s.world.rows, exited);
      OneStep(Settings(), s, Reset);
    }

    /** The end of a pass, once the pool is full. */
    method EndPass(exited: seq<Pid>)
      requires Reached(Settings(), Snap(Refilling(exited, None))) && |workers| == minWorkers
      modifies cluster
      ensures Proceeds(Settings(), old(Snap(Refilling(exited, None))), Snap(Sleeping))
    {
      ghost var s := Snap(Refilling(exited, None));
      OneStep(Settings(), s, PoolFull);
      if exited != [] {
        ghost var t := Snap(Resetting(exited));
        Await(Resetting(exited));
        ProceedsOn(Settings(), s, t, Snap(Resetting(exited)));
        t := Snap(Resetting(exited));
        PutBack(exited);
        ProceedsOn(Settings(), s, t, Snap(Sleeping));
      }
    }

    /** The first half of a pass: every worker is checked, and the exited ones are forgotten. */
    method CheckAll(order: seq<Pid>) returns (exited: seq<Pid>)
      requires Reached(Settings(), Snap(Checking(order, [], false)))
      modifies this`workers, cluster
      ensures Proceeds(Settings(), old(Snap(Checking(order, [], false))), Snap(Refilling(exited, None)))
    {
      ghost var began := Snap(Checking(order, [], false));
      exited := CheckEach(order);
      ghost var t := Snap(Checking([], exited, false));
      PopExited(exited);
      ProceedsOn(Settings(), began, t, Snap(Refilling(exited, None)));
    }

    /** Ends one worker, unless it is gone already; others go on while it lasts. */
    method EndWorker(d: Duty, pid: Pid, ghost gone: set<Pid>)
      requires Reached(Settings(), Snap(d)) && pid in workers && Gone(cluster.World(), gone)
      modifies cluster
      ensures Proceeds(Settings(), old(Snap(d)), Snap(d)) && Gone(cluster.World(), gone + {pid})
    {
      ghost var s := Snap(d);
      Await(d);
      ProceedsGone(Settings(), s, Snap(d), gone);
      ghost var t := Snap(d);
      ReachedOn(Settings(), s, t);
      TrackedExist(Settings(), t);
      if !cluster.procs[pid].stage.Exited? {
        cluster.procs := cluster.procs[pid := cluster.procs[pid].(stage := Exited)];
        OneStep(Settings(), t, Env(Exit(pid)));
        ProceedsOn(Settings(), s, t, Snap(d));
        ProceedsGone(Settings(), t, Snap(d), gone);
      }
    }

    method EndWorkers(d: Duty)
      requires Reached(Settings(), Snap(d))
      modifies cluster
      ensures Proceeds(Settings(), old(Snap(d)), Snap(d)) && Gone(cluster.World(), workers)
    {
      ghost var s := Snap(d);
      Stays(Settings(), s, 1);
      var rest := workers;
      while rest != {}
        invariant rest <= workers && Proceeds(Settings(), s, Snap(d)) && Gone(cluster.World(), workers - rest)
        decreases rest
      {
        ghost var t := Snap(d);
        ReachedOn(Settings(), s, t);
        var pid :| pid in rest;
        EndWorker(d, pid, workers - rest);
        ProceedsOn(Settings(), s, t, Snap(d));
        assert workers - rest + {pid} == workers - (rest - {pid});
        rest := rest - {pid};
      }
      assert workers - rest == workers;
    }

    /** Stops the manager, whatever it is doing: every tracked worker is ended, while
        the others go on, and the dictionary is cleared.  No row is put back. */
    method Stop(d: Duty)
      requires running ==> Reached(Settings(), Snap(d))
      modifies this`workers, this`running, cluster
      ensures !running
      ensures !old(running) ==> workers == old(workers) && cluster.World() == old(cluster.World())
      ensures old(running) ==> StopsFrom(Settings(), old(Snap(d)), Snap(NotStarted))
    {
      if !running {
        return;
      }
      running := false;
      ghost var s := Snap(d);
      EndWorkers(d);
      ghost var t := Snap(d);
      StoppedWhenGone(t);
      workers := {};
      assert Snap(NotStarted) == Stopped(t, t.mgr.workers);
    }

    /** The second half: the pool is filled up, and then the exited workers' rows are put back. */
    method Replace(exited: seq<Pid>, turns: nat) returns (done: bool)
      requires Reached(Settings(), Snap(Refilling(exited, None)))
      modifies this`workers, this`spawnFails, cluster
      ensures Proceeds(Settings(), old(Snap(Refilling(exited, None))), Snap(if done then Sleeping else Refilling(exited, None)))
      ensures if done then |workers| == minWorkers else |workers| < minWorkers
      ensures minWorkers <= maxWorkers && |old(spawnFails)| + minWorkers <= turns ==> done
      ensures maxWorkers < minWorkers ==> !done
    {
      ghost var s := Snap(Refilling(exited, None));
      PoolWithin(Settings(), s);
      done := MaintainWorkerPool(exited, turns);
      if done {
        ghost var t := Snap(Refilling(exited, None));
        ReachedOn(Settings(), s, t);
        EndPass(exited);
        ProceedsOn(Settings(), s, t, Snap(Sleeping));
      }
    }

    /** One pass over the workers, with everyone else going on at each await; the
        refill is cut off after `turns` spawn calls.  If it fills the pool, this is a
        complete pass of the protocol and leaves exactly min_workers workers, and that
        happens whenever min_workers <= max_workers and there are turns enough.  If
        it does not, the pass is still in its refill. */
    method CheckWorkers(turns: nat) returns (done: bool)
      requires Reached(Settings(), Snap(Sleeping))
      modifies this`workers, this`spawnFails, cluster
      ensures done ==> Pass(Settings(), old(Snap(Sleeping)), Snap(Sleeping)) && |workers| == minWorkers
      ensures !done ==> |workers| < minWorkers
      ensures !done ==> exists exited :: Pass(Settings(), old(Snap(Sleeping)), Snap(Refilling(exited, None)))
      ensures minWorkers <= maxWorkers && |old(spawnFails)| + minWorkers <= turns ==> done
      ensures maxWorkers < minWorkers ==> !done
    {
      ghost var s := Snap(Sleeping);
      var order := Listed(workers);
      ghost var began := Snap(Checking(order, [], false));
      assert began == Next(Settings(), s, BeginPass(order));
      ReachedNext(Settings(), s, BeginPass(order));
      var exited := CheckAll(order);
      ghost var t := Snap(Refilling(exited, None));
      ReachedOn(Settings(), began, t);
      done := Replace(exited, turns);
      ProceedsOn(Settings(), began, t, Snap(if done then Sleeping else Refilling(exited, None)));
    }
  }

  // ----- What the methods need of the states they are called in -----

  lemma TrackedExist(c: Config, s: State)
    requires Reached(c, s)
    ensures s.mgr.workers <= s.world.procs.Keys
  {
    ReachedIsSafe(c, s);
  }

  lemma NeverFails(spawnFails: seq<bool>)
    ensures Reliable(spawnFails) ==> !FailsNow(spawnFails) && Reliable(LaterFails(spawnFails))
  {
  }

  lemma NotYetTracked(c: Config, s: State)
    requires Reached(c, s) && ForkedBy(s.mgr.duty).Some?
    ensures ForkedBy(s.mgr.duty).value !in s.mgr.workers
  {
    ReachedIsSafe(c, s);
  }

  lemma NoneTracked(c: Config, s: State)
    requires Reached(c, s) && s.mgr.duty.NotStarted?
    ensures s.mgr.workers == {}
  {
    ReachedIsSafe(c, s);
  }

  lemma TodoIsTracked(c: Config, s: State)
    requires Reached(c, s) && s.mgr.duty.Checking? && s.mgr.duty.todo != []
    ensures s.mgr.duty.todo[0] in s.world.procs
  {
    ReachedIsSafe(c, s);
  }

  lemma PoolWithin(c: Config, s: State)
    requires Reached(c, s)
    ensures |s.mgr.workers| <= c.minWorkers && |s.mgr.workers| <= c.maxWorkers
  {
    ReachedIsSafe(c, s);
  }
}
