/** What every step of the protocol keeps. */
module Invariant {
  import opened Wrappers
  import opened TaskTable
  import opened Packages
  import opened Protocol

  ghost predicate RowOk(t: Task) {
    && CheckConstraint(t)
    && (t.status.QUEUED? ==> t.pid.None? && t.started.None?)
    && (Unfinished(t) ==> t.error.None? && t.completed.None?)
  }

  ghost predicate RowsOk(w: World) {
    && w.rows.Keys <= w.used
    && forall id :: id in w.rows ==> RowOk(w.rows[id])
  }

  /** The process named by an ACTIVE row claimed that row and no other. */
  ghost predicate HolderOk(w: World, id: RowId)
    requires id in w.rows && w.rows[id].status.ACTIVE? && w.rows[id].pid.Some?
  {
    var p := w.rows[id].pid.value;
    p in w.procs && w.procs[p].task == Some(id) && (Busy(w.procs[p]) || w.procs[p].stage.Exited?)
  }

  ghost predicate HoldersOk(w: World) {
    forall id :: id in w.rows && w.rows[id].status.ACTIVE? ==> w.rows[id].pid.Some? && HolderOk(w, id)
  }

  /** The row is gone, or has ended. */
  ghost predicate Over(w: World, id: RowId) {
    id in w.rows ==> Terminal(w.rows[id])
  }

  ghost predicate ProcOk(w: World, pid: Pid)
    requires pid in w.procs
  {
    var p := w.procs[pid];
    && (p.stage.Idle? ==> p.task.None?)
    && (p.cached.Some? ==> p.cached == p.task)
    && (p.task.Some? ==> p.task.value in w.used)
    && (p.task.None? ==> p.stage.Idle? || p.stage.Exited?)
    && (p.stage.Handling? ==> p.stage.e.TaskError? ==> p.stage.e.payload.Some?)
    && (Busy(p) ==> Over(w, p.task.value) || HeldBy(w.rows[p.task.value], pid))
    && (p.stage.Finished? ==> Over(w, p.task.value))
  }

  ghost predicate ProcsOk(w: World) {
    forall pid :: pid in w.procs ==> ProcOk(w, pid)
  }

  /** Mutual exclusion. */
  ghost predicate Exclusive(w: World) {
    forall p, q :: p in w.procs && q in w.procs && p != q && Busy(w.procs[p]) && Busy(w.procs[q]) ==>
      w.procs[p].task != w.procs[q].task
  }

  ghost predicate PackageOk(w: World, sha: string) {
    && |UnfinishedOf(w.rows, sha)| <= BATCH
    && (RowsOf(w.rows, sha) != {} ==> sha in w.packages && Ready(w.packages[sha]))
  }

  ghost predicate PackagesOk(w: World) {
    forall sha :: PackageOk(w, sha)
  }

  ghost predicate TallyOk(w: World) {
    w.tally.enqueued + w.tally.requeued == w.tally.claimed + |Queued(w.rows)|
  }

  ghost predicate WorldOk(w: World) {
    RowsOk(w) && HoldersOk(w) && ProcsOk(w) && Exclusive(w) && PackagesOk(w) && TallyOk(w)
  }

  // ----- Steps of the environment -----

  function FirstIds(slots: seq<Slot>, n: nat): set<RowId>
    requires n <= |slots|
  {
    set i | 0 <= i < n :: slots[i].id
  }

  lemma SlotCount(slots: seq<Slot>)
    requires FreshSlots(slots, {})
    ensures |SlotIds(slots)| == BATCH
  {
    CountFirst(slots, |slots|);
    assert FirstIds(slots, |slots|) == SlotIds(slots);
  }

  lemma OneMoreId(slots: seq<Slot>, n: nat)
    requires n < |slots|
    requires forall i, j :: 0 <= i < j < |slots| ==> slots[i].id != slots[j].id
    ensures FirstIds(slots, n + 1) == FirstIds(slots, n) + {slots[n].id} && slots[n].id !in FirstIds(slots, n)
  {
  }

  lemma {:induction false} CountFirst(slots: seq<Slot>, n: nat)
    requires n <= |slots|
    requires forall i, j :: 0 <= i < j < |slots| ==> slots[i].id != slots[j].id
    ensures |FirstIds(slots, n)| == n
  {
    if n > 0 {
      CountFirst(slots, n - 1);
      OneMoreId(slots, n - 1);
    }
  }

  predicate IsRequest(a: Action) {
    a.CheckRequest? || a.RestartRequest?
  }

  function Answer(w: World, a: Action): (Reply, Table)
    requires CanAct(w, a) && IsRequest(a)
  {
    if a.CheckRequest? then Check(w.rows, w.packages, a.sha, a.slots)
    else Restart(w.rows, w.packages, a.sha, a.slots)
  }

  lemma NothingUnfinished(rows: Table, sha: string)
    requires UnfinishedOf(rows, sha) == {}
    ensures forall id :: id in rows && rows[id].package == Some(sha) ==> !Unfinished(rows[id])
  {
    forall id | id in rows && rows[id].package == Some(sha) ensures !Unfinished(rows[id]) {
      assert id !in UnfinishedOf(rows, sha);
    }
  }

  /** A request keeps each row as it is or deletes it when it has ended, and
      adds only the fresh rows `added`, all of one package. */
  ghost predicate Amends(rows: Table, rows': Table, used: set<RowId>, added: set<RowId>, sha: string) {
    && added !! used && added <= rows'.Keys
    && (forall id :: id in rows && Unfinished(rows[id]) ==> id in rows')
    && (forall id :: id in rows' && id !in added ==> id in rows && rows'[id] == rows[id])
    && (forall id :: id in added ==> FreshTask(rows'[id]) && rows'[id].package == Some(sha))
  }

  function AddedBy(w: World, a: Action): set<RowId>
    requires CanAct(w, a) && IsRequest(a)
  {
    if Answer(w, a).0.Accepted? then SlotIds(a.slots) else {}
  }

  lemma RequestEffect(w: World, a: Action)
    requires CanAct(w, a) && IsRequest(a) && RowsOk(w)
    ensures Amends(w.rows, Answer(w, a).1, w.used, AddedBy(w, a), a.sha)
    ensures Answer(w, a).0.Accepted? ==>
      a.sha in w.packages && Ready(w.packages[a.sha]) && UnfinishedOf(w.rows, a.sha) == {}
  {
    if a.sha in w.packages && UnfinishedOf(w.rows, a.sha) == {} {
      NothingUnfinished(w.rows, a.sha);
      if Ready(w.packages[a.sha]) {
        var added := NewRows(a.sha, w.packages[a.sha], a.slots);
      }
    }
  }

  lemma AmendedCount(rows: Table, rows': Table, used: set<RowId>, added: set<RowId>, sha: string, other: string)
    requires Amends(rows, rows', used, added, sha) && rows.Keys <= used
    requires added != {} ==> UnfinishedOf(rows, sha) == {}
    requires |UnfinishedOf(rows, other)| <= BATCH && |added| <= BATCH
    ensures |UnfinishedOf(rows', other)| <= BATCH
    ensures RowsOf(rows', other) <= RowsOf(rows, other) + (if sha == other then added else {})
  {
    if other == sha && added != {} {
      NothingUnfinished(rows, sha);
      assert added == UnfinishedOf(rows', sha) + (added - UnfinishedOf(rows', sha));
    } else {
      CountKept(rows, rows', other);
    }
  }

  lemma AmendedQueue(rows: Table, rows': Table, used: set<RowId>, added: set<RowId>, sha: string)
    requires Amends(rows, rows', used, added, sha) && rows.Keys <= used
    ensures |Queued(rows')| == |Queued(rows)| + |added|
  {
    assert Queued(rows') == Queued(rows) + added;
  }

  lemma RowsActed(w: World, a: Action)
    requires WorldOk(w) && CanAct(w, a)
    ensures RowsOk(Act(w, a))
  {
    if IsRequest(a) {
      RequestEffect(w, a);
    }
  }

  /** A worker's own step leaves every other process as it is, and every row
      except the one that the worker claims or has claimed. */
  predicate ByWorker(a: Action) {
    Actor(a).Some?
  }

  function Target(w: World, a: Action): Option<RowId>
    requires ByWorker(a) && CanAct(w, a)
  {
    if a.Claim? then Some(a.id) else w.procs[a.pid].task
  }

  lemma OwnRowOnly(w: World, a: Action)
    requires WorldOk(w) && CanAct(w, a) && ByWorker(a)
    ensures Act(w, a).rows.Keys == w.rows.Keys && Act(w, a).procs.Keys == w.procs.Keys
    ensures forall id :: id in w.rows && Some(id) != Target(w, a) ==> Act(w, a).rows[id] == w.rows[id]
    ensures forall p :: p in w.procs && p != a.pid ==> Act(w, a).procs[p] == w.procs[p]
    ensures Act(w, a).used == w.used && Act(w, a).packages == w.packages
  {
    assert ProcOk(w, a.pid);
  }

  /** What the step does to the worker's own row. */
  lemma OwnRow(w: World, a: Action)
    requires WorldOk(w) && CanAct(w, a) && ByWorker(a) && Target(w, a).Some? && Target(w, a).value in w.rows
    ensures
      var id := Target(w, a).value;
      var t, u := w.rows[id], Act(w, a).rows[id];
      && u.added == t.added && u.package == t.package && u.taskType == t.taskType && u.args == t.args
      && (Terminal(t) ==> Terminal(u))
      && (a.Claim? <==> t.status.QUEUED?)
      && (a.Claim? ==> HeldBy(u, a.pid))
      && (!a.Claim? && u.status.ACTIVE? ==> t.status.ACTIVE? && u.pid == t.pid)
      && !u.status.QUEUED?
  {
    assert ProcOk(w, a.pid);
    if w.rows[Target(w, a).value].status.ACTIVE? {
      assert HolderOk(w, Target(w, a).value);
    }
  }

  /** What the step does to the worker itself. */
  lemma OwnProc(w: World, a: Action)
    requires WorldOk(w) && CanAct(w, a) && ByWorker(a)
    ensures
      var p, q := w.procs[a.pid], Act(w, a).procs[a.pid];
      && !q.stage.Idle?
      && (q.task == if a.Claim? then Some(a.id) else p.task)
      && (Busy(q) <==> a.Claim? || (Busy(p) && !a.Exit? && !q.stage.Finished?))
      && ProcOk(Act(w, a), a.pid)
  {
    assert ProcOk(w, a.pid);
  }

  lemma HolderActed(w: World, a: Action, id: RowId)
    requires WorldOk(w) && CanAct(w, a) && ByWorker(a)
    requires id in Act(w, a).rows && Act(w, a).rows[id].status.ACTIVE?
    ensures Act(w, a).rows[id].pid.Some? && HolderOk(Act(w, a), id)
  {
    OwnRowOnly(w, a);
    OwnProc(w, a);
    if Some(id) == Target(w, a) {
      OwnRow(w, a);
    } else {
      assert HolderOk(w, id);
    }
  }

  lemma HoldersActed(w: World, a: Action)
    requires WorldOk(w) && CanAct(w, a)
    ensures HoldersOk(Act(w, a))
  {
    if IsRequest(a) {
      RequestEffect(w, a);
    } else if ByWorker(a) {
      forall id | id in Act(w, a).rows && Act(w, a).rows[id].status.ACTIVE?
        ensures Act(w, a).rows[id].pid.Some? && HolderOk(Act(w, a), id)
      {
        HolderActed(w, a, id);
      }
    }
  }

  lemma OtherProc(w: World, a: Action, pid: Pid)
    requires WorldOk(w) && CanAct(w, a) && ByWorker(a) && pid in w.procs && pid != a.pid
    ensures pid in Act(w, a).procs && ProcOk(Act(w, a), pid)
  {
    assert ProcOk(w, pid);
    OwnRowOnly(w, a);
    if Target(w, a).Some? && Target(w, a).value in w.rows {
      OwnRow(w, a);
    }
  }

  lemma ProcActed(w: World, a: Action, pid: Pid)
    requires WorldOk(w) && CanAct(w, a) && pid in w.procs
    ensures pid in Act(w, a).procs && ProcOk(Act(w, a), pid)
  {
    if ByWorker(a) {
      if pid == a.pid {
        OwnProc(w, a);
      } else {
        OtherProc(w, a, pid);
      }
    } else {
      assert ProcOk(w, pid);
      if IsRequest(a) {
        RequestEffect(w, a);
      }
    }
  }

  lemma ProcsActed(w: World, a: Action)
    requires WorldOk(w) && CanAct(w, a)
    ensures ProcsOk(Act(w, a))
  {
    forall pid | pid in Act(w, a).procs
      ensures ProcOk(Act(w, a), pid)
    {
      assert pid in w.procs;
      ProcActed(w, a, pid);
    }
  }

  lemma ExclusiveActed(w: World, a: Action)
    requires WorldOk(w) && CanAct(w, a)
    ensures Exclusive(Act(w, a))
  {
    if IsRequest(a) {
      RequestEffect(w, a);
    }
  }

  /** A step that leaves no row of the package newly unfinished keeps its count. */
  lemma CountKept(rows: Table, rows': Table, sha: string)
    requires UnfinishedOf(rows', sha) <= UnfinishedOf(rows, sha)
    ensures |UnfinishedOf(rows', sha)| <= |UnfinishedOf(rows, sha)|
  {
    var rest := UnfinishedOf(rows, sha) - UnfinishedOf(rows', sha);
    assert UnfinishedOf(rows, sha) == UnfinishedOf(rows', sha) + rest;
  }

  lemma PackageRequested(w: World, a: Action, sha: string)
    requires WorldOk(w) && CanAct(w, a) && IsRequest(a)
    ensures PackageOk(Act(w, a), sha)
  {
    assert PackageOk(w, sha);
    RequestEffect(w, a);
    SlotCount(a.slots);
    AmendedCount(w.rows, Answer(w, a).1, w.used, AddedBy(w, a), a.sha, sha);
  }

  /** Steps that bring no row back, and give none to another package. */
  ghost predicate Settles(rows: Table, rows': Table) {
    forall id :: id in rows' && rows'[id].package.Some? ==>
      id in rows && rows'[id].package == rows[id].package && (Unfinished(rows'[id]) ==> Unfinished(rows[id]))
  }

  lemma SettlesKeeps(rows: Table, rows': Table, sha: string)
    requires Settles(rows, rows')
    ensures |UnfinishedOf(rows', sha)| <= |UnfinishedOf(rows, sha)|
    ensures RowsOf(rows', sha) <= RowsOf(rows, sha)
  {
    CountKept(rows, rows', sha);
  }

  lemma ActedSettles(w: World, a: Action)
    requires WorldOk(w) && CanAct(w, a) && !IsRequest(a)
    ensures Settles(w.rows, Act(w, a).rows)
  {
    if ByWorker(a) {
      OwnRowOnly(w, a);
      if Target(w, a).Some? && Target(w, a).value in w.rows {
        OwnRow(w, a);
      }
    }
  }

  lemma PackageActed(w: World, a: Action, sha: string)
    requires WorldOk(w) && CanAct(w, a)
    ensures PackageOk(Act(w, a), sha)
  {
    if IsRequest(a) {
      PackageRequested(w, a, sha);
    } else {
      assert PackageOk(w, sha);
      ActedSettles(w, a);
      SettlesKeeps(w.rows, Act(w, a).rows, sha);
    }
  }

  lemma RequestTally(w: World, a: Action)
    requires WorldOk(w) && CanAct(w, a) && IsRequest(a)
    ensures TallyOk(Act(w, a))
  {
    RequestEffect(w, a);
    SlotCount(a.slots);
    AmendedQueue(w.rows, Answer(w, a).1, w.used, AddedBy(w, a), a.sha);
  }

  lemma SameQueue(rows: Table, rows': Table)
    requires forall id :: id in rows <==> id in rows'
    requires forall id :: id in rows ==> (rows[id].status.QUEUED? <==> rows'[id].status.QUEUED?)
    ensures Queued(rows) == Queued(rows')
  {
  }

  lemma QueueGains(rows: Table, id: RowId, task: Task)
    requires id !in rows && task.status.QUEUED?
    ensures |Queued(rows[id := task])| == |Queued(rows)| + 1
  {
    assert Queued(rows[id := task]) == Queued(rows) + {id};
  }

  lemma QueueLoses(rows: Table, id: RowId, pid: Pid, now: Time)
    requires id in rows && rows[id].status.QUEUED?
    ensures |Queued(ClaimRow(rows, id, pid, now))| + 1 == |Queued(rows)|
  {
    assert id in Queued(rows);
    assert Queued(ClaimRow(rows, id, pid, now)) == Queued(rows) - {id};
  }

  lemma TallyActed(w: World, a: Action)
    requires WorldOk(w) && CanAct(w, a)
    ensures TallyOk(Act(w, a))
  {
    if IsRequest(a) {
      RequestTally(w, a);
    } else if a.Enqueue? {
      QueueGains(w.rows, a.id, a.task);
    } else if a.Claim? {
      QueueLoses(w.rows, a.id, a.pid, w.clock);
    } else {
      ProcsUnqueued(w, a);
      SameQueue(w.rows, Act(w, a).rows);
    }
  }

  /** Only creating and claiming rows changes the queue. */
  lemma ProcsUnqueued(w: World, a: Action)
    requires WorldOk(w) && CanAct(w, a) && !IsRequest(a) && !a.Enqueue? && !a.Claim?
    ensures forall id :: id in w.rows <==> id in Act(w, a).rows
    ensures forall id :: id in w.rows ==> (w.rows[id].status.QUEUED? <==> Act(w, a).rows[id].status.QUEUED?)
  {
    if a.Respond? || a.HandleError? {
      assert ProcOk(w, a.pid);
    }
  }

  lemma WorldActed(w: World, a: Action)
    requires WorldOk(w) && CanAct(w, a)
    ensures WorldOk(Act(w, a))
  {
    RowsActed(w, a);
    HoldersActed(w, a);
    ProcsActed(w, a);
    ExclusiveActed(w, a);
    forall sha ensures PackageOk(Act(w, a), sha) {
      PackageActed(w, a, sha);
    }
    TallyActed(w, a);
  }

  // ----- The manager -----

  /** A process that can no longer own an ACTIVE row: it is gone, or the row it claimed is. */
  ghost predicate Dismissed(w: World, pid: Pid) {
    && pid in w.procs
    && (w.procs[pid].stage.Exited? || (w.procs[pid].task.Some? && Over(w, w.procs[pid].task.value)))
  }

  /** Known to the manager, waiting to be reset, or still inside the spawn call. */
  ghost predicate Tracked(m: Manager, pid: Pid) {
    pid in m.workers || pid in Waiting(m.duty) || ForkedBy(m.duty) == Some(pid)
  }

  ghost predicate RowsTracked(s: State) {
    forall id :: id in s.world.rows && s.world.rows[id].status.ACTIVE? ==>
      s.world.rows[id].pid.Some? && Tracked(s.mgr, s.world.rows[id].pid.value)
  }

  ghost predicate PidsOk(s: State) {
    && s.mgr.workers <= s.world.procs.Keys
    && (forall p :: p in s.world.procs && s.world.procs[p].stage.Idle? ==>
          p in s.mgr.workers || ForkedBy(s.mgr.duty) == Some(p))
    && (s.mgr.duty.Checking? ==> forall p :: p in s.mgr.duty.todo ==> p in s.mgr.workers)
    && (forall p :: p in Waiting(s.mgr.duty) ==> Dismissed(s.world, p))
    && (ForkedBy(s.mgr.duty).Some? ==>
          && ForkedBy(s.mgr.duty).value in s.world.procs && ForkedBy(s.mgr.duty).value !in s.mgr.workers
          && ForkedBy(s.mgr.duty).value !in Waiting(s.mgr.duty))
  }

  ghost predicate PoolOk(c: Config, m: Manager) {
    && |m.workers| <= c.minWorkers && |m.workers| <= c.maxWorkers
    && (m.duty.NotStarted? ==> m.workers == {})
    && (m.duty.Starting? ==> |m.workers| + m.duty.left <= c.minWorkers)
    && (m.duty.Starting? && m.duty.forked.Some? ==> 0 < m.duty.left)
    && (ForkedBy(m.duty).Some? ==> |m.workers| < c.minWorkers && |m.workers| < c.maxWorkers)
    && (m.duty.Resetting? ==> |m.workers| == c.minWorkers)
  }

  ghost predicate Inv(c: Config, s: State) {
    WorldOk(s.world) && RowsTracked(s) && PidsOk(s) && PoolOk(c, s.mgr)
  }

  lemma DismissedActed(w: World, a: Action, pid: Pid)
    requires WorldOk(w) && CanAct(w, a) && Dismissed(w, pid)
    ensures Dismissed(Act(w, a), pid)
  {
    assert ProcOk(w, pid);
    if IsRequest(a) {
      RequestEffect(w, a);
    } else if ByWorker(a) {
      OwnRowOnly(w, a);
      OwnProc(w, a);
      if Target(w, a).Some? && Target(w, a).value in w.rows {
        OwnRow(w, a);
      }
    }
  }

  lemma RowTracked(c: Config, s: State, a: Action, id: RowId)
    requires Inv(c, s) && CanAct(s.world, a) && ByWorker(a)
    requires id in Act(s.world, a).rows && Act(s.world, a).rows[id].status.ACTIVE?
    ensures Act(s.world, a).rows[id].pid.Some? && Tracked(s.mgr, Act(s.world, a).rows[id].pid.value)
  {
    OwnRowOnly(s.world, a);
    if Some(id) == Target(s.world, a) {
      OwnRow(s.world, a);
    }
  }

  lemma RequestTracked(c: Config, s: State, a: Action)
    requires Inv(c, s) && CanAct(s.world, a) && IsRequest(a)
    ensures RowsTracked(Next(c, s, Env(a)))
  {
    RequestEffect(s.world, a);
  }

  lemma TrackedActed(c: Config, s: State, a: Action)
    requires Inv(c, s) && CanAct(s.world, a)
    ensures RowsTracked(Next(c, s, Env(a)))
  {
    if IsRequest(a) {
      RequestTracked(c, s, a);
    } else if ByWorker(a) {
      forall id | id in Act(s.world, a).rows && Act(s.world, a).rows[id].status.ACTIVE?
        ensures Act(s.world, a).rows[id].pid.Some? && Tracked(s.mgr, Act(s.world, a).rows[id].pid.value)
      {
        RowTracked(c, s, a, id);
      }
    }
  }

  /** No process appears or goes, and none becomes idle. */
  lemma SameProcs(w: World, a: Action)
    requires WorldOk(w) && CanAct(w, a)
    ensures Act(w, a).procs.Keys == w.procs.Keys
    ensures forall p :: p in w.procs && Act(w, a).procs[p].stage.Idle? ==> w.procs[p].stage.Idle?
  {
    if ByWorker(a) {
      OwnRowOnly(w, a);
      OwnProc(w, a);
    }
  }

  lemma PidsActed(c: Config, s: State, a: Action)
    requires Inv(c, s) && CanAct(s.world, a)
    ensures PidsOk(Next(c, s, Env(a)))
  {
    SameProcs(s.world, a);
    forall p | p in Waiting(s.mgr.duty) ensures Dismissed(Act(s.world, a), p) {
      DismissedActed(s.world, a, p);
    }
  }

  lemma Acted(c: Config, s: State, a: Action)
    requires Inv(c, s) && CanAct(s.world, a)
    ensures Inv(c, Next(c, s, Env(a)))
  {
    WorldActed(s.world, a);
    TrackedActed(c, s, a);
    PidsActed(c, s, a);
  }

  lemma PackagesKept(w: World, w': World)
    requires PackagesOk(w) && w'.packages == w.packages && Settles(w.rows, w'.rows)
    ensures PackagesOk(w')
  {
    forall sha ensures PackageOk(w', sha) {
      assert PackageOk(w, sha);
      SettlesKeeps(w.rows, w'.rows, sha);
    }
  }

  lemma StillDismissed(w: World, w': World, pids: seq<Pid>)
    requires forall p :: p in pids ==> Dismissed(w, p)
    requires forall p :: p in w.procs ==> p in w'.procs && w'.procs[p] == w.procs[p]
    requires forall id :: Over(w, id) ==> Over(w', id)
    ensures forall p :: p in pids ==> Dismissed(w', p)
  {
    forall p | p in pids ensures Dismissed(w', p) {
      assert Dismissed(w, p);
    }
  }

  lemma TimedOutWorld(c: Config, s: State, found: Option<RowId>)
    requires Inv(c, s) && Enabled(c, s, CheckDuration(found)) && Overdue(c, s.world, found)
    ensures WorldOk(Next(c, s, CheckDuration(found)).world)
  {
    var w, w' := s.world, Next(c, s, CheckDuration(found)).world;
    PackagesKept(w, w');
    SameQueue(w.rows, w'.rows);
    forall pid | pid in w'.procs ensures ProcOk(w', pid) {
      assert ProcOk(w, pid);
    }
  }

  lemma TimedOutTracked(c: Config, s: State, found: Option<RowId>)
    requires Inv(c, s) && Enabled(c, s, CheckDuration(found)) && Overdue(c, s.world, found)
    ensures RowsTracked(Next(c, s, CheckDuration(found)))
  {
  }

  lemma TimedOutPids(c: Config, s: State, found: Option<RowId>)
    requires Inv(c, s) && Enabled(c, s, CheckDuration(found)) && Overdue(c, s.world, found)
    ensures PidsOk(Next(c, s, CheckDuration(found)))
  {
    var w' := Next(c, s, CheckDuration(found)).world;
    assert HolderOk(s.world, found.value);
    StillDismissed(s.world, w', s.mgr.duty.exited);
    assert Dismissed(w', s.mgr.duty.todo[0]);
  }

  lemma TimedOut(c: Config, s: State, found: Option<RowId>)
    requires Inv(c, s) && Enabled(c, s, CheckDuration(found)) && Overdue(c, s.world, found)
    ensures Inv(c, Next(c, s, CheckDuration(found)))
  {
    TimedOutWorld(c, s, found);
    TimedOutTracked(c, s, found);
    TimedOutPids(c, s, found);
  }

  /** A reset takes no row from a process that is still working on it. */
  lemma ResetSpares(s: State, pid: Pid)
    requires WorldOk(s.world) && PidsOk(s) && s.mgr.duty.Resetting?
    requires pid in s.world.procs && Busy(s.world.procs[pid])
    ensures s.world.procs[pid].task.Some?
    ensures s.world.procs[pid].task.value !in HeldRows(s.world.rows, s.mgr.duty.exited)
  {
    var w := s.world;
    assert ProcOk(w, pid);
    var id := w.procs[pid].task.value;
    assert id in w.rows && HeldBy(w.rows[id], pid) ==> !Dismissed(w, pid);
  }

  lemma ResetProcs(s: State, w': World)
    requires WorldOk(s.world) && PidsOk(s) && s.mgr.duty.Resetting?
    requires w'.rows == ResetRows(s.world.rows, s.mgr.duty.exited) && w'.used == s.world.used && w'.procs == s.world.procs
    ensures RowsOk(w') && HoldersOk(w') && ProcsOk(w') && Exclusive(w')
  {
    var w := s.world;
    forall pid | pid in w'.procs ensures ProcOk(w', pid) {
      assert ProcOk(w, pid);
      if Busy(w.procs[pid]) {
        ResetSpares(s, pid);
      }
    }
    forall id | id in w'.rows && w'.rows[id].status.ACTIVE? ensures w'.rows[id].pid.Some? && HolderOk(w', id) {
      assert HolderOk(w, id);
    }
  }

  lemma ResetCounts(w: World, w': World, pids: seq<Pid>)
    requires PackagesOk(w) && w'.rows == ResetRows(w.rows, pids) && w'.packages == w.packages
    ensures PackagesOk(w')
    ensures |Queued(w'.rows)| == |Queued(w.rows)| + |HeldRows(w.rows, pids)|
  {
    PackagesKept(w, w');
    assert Queued(w'.rows) == Queued(w.rows) + HeldRows(w.rows, pids);
    assert Queued(w.rows) !! HeldRows(w.rows, pids);
  }

  lemma ResetTracked(c: Config, s: State)
    requires Inv(c, s) && Enabled(c, s, Reset)
    ensures RowsTracked(Next(c, s, Reset)) && PidsOk(Next(c, s, Reset)) && PoolOk(c, Next(c, s, Reset).mgr)
  {
  }

  lemma WasReset(c: Config, s: State)
    requires Inv(c, s) && Enabled(c, s, Reset)
    ensures Inv(c, Next(c, s, Reset))
  {
    var w' := Next(c, s, Reset).world;
    ResetProcs(s, w');
    ResetCounts(s.world, w', s.mgr.duty.exited);
    ResetTracked(c, s);
  }

  lemma Forked(c: Config, s: State, p: Pid)
    requires Inv(c, s) && Enabled(c, s, Fork(p))
    ensures Inv(c, Next(c, s, Fork(p)))
  {
    var w, w' := s.world, Next(c, s, Fork(p)).world;
    PackagesKept(w, w');
    forall q | q in w'.procs ensures ProcOk(w', q) {
      assert q in w.procs ==> ProcOk(w, q);
    }
    StillDismissed(w, w', Waiting(s.mgr.duty));
  }

  lemma FewerPids(all: set<Pid>, gone: set<Pid>)
    ensures |all - gone| <= |all|
  {
    assert all == (all - gone) + (all * gone);
  }

  lemma Popped(c: Config, s: State)
    requires Inv(c, s) && Enabled(c, s, PopExited)
    ensures Inv(c, Next(c, s, PopExited))
  {
    var kept := Next(c, s, PopExited).mgr.workers;
    FewerPids(s.mgr.workers, PidsOf(s.mgr.duty.exited));
    forall p | p in s.world.procs && s.world.procs[p].stage.Idle? ensures p in kept {
      assert ProcOk(s.world, p);
      assert !Dismissed(s.world, p);
    }
  }

  predicate Bookkeeping(e: Event) {
    e.Start? || e.SpawnFail? || e.Started? || e.BeginPass? || e.CheckAlive? || e.PoolFull?
  }

  lemma Booked(c: Config, s: State, e: Event)
    requires Inv(c, s) && Enabled(c, s, e) && Bookkeeping(e)
    ensures Inv(c, Next(c, s, e))
  {
    if e.CheckAlive? && s.world.procs[s.mgr.duty.todo[0]].stage.Exited? {
      assert Dismissed(s.world, s.mgr.duty.todo[0]);
    }
  }

  lemma TrackKeeps(c: Config, s: State)
    requires Inv(c, s) && Enabled(c, s, Track)
    ensures Inv(c, Next(c, s, Track))
  {
    assert Waiting(Next(c, s, Track).mgr.duty) == Waiting(s.mgr.duty);
  }

  /** Every event keeps the invariant. */
  lemma Preserved(c: Config, s: State, e: Event)
    requires Inv(c, s) && Enabled(c, s, e)
    ensures Inv(c, Next(c, s, e))
  {
    if Bookkeeping(e) {
      Booked(c, s, e);
    } else {
      match e
      case Env(a) => Acted(c, s, a);
      case CheckDuration(found) =>
        if Overdue(c, s.world, found) {
          TimedOut(c, s, found);
        }
      case Reset => WasReset(c, s);
      case Fork(p) => Forked(c, s, p);
      case Track => TrackKeeps(c, s);
      case PopExited => Popped(c, s);
    }
  }

  /** A run starts with no manager, no worker and no claimed row; rows and
      packages of earlier days may be there. */
  ghost predicate Init(s: State) {
    && s.mgr == Manager({}, NotStarted)
    && s.world.procs == map[]
    && RowsOk(s.world) && PackagesOk(s.world)
    && (forall id :: id in s.world.rows ==> !s.world.rows[id].status.ACTIVE?)
    && s.world.tally == Tally(|Queued(s.world.rows)|, 0, 0)
  }

  /** The invariant holds throughout every run that keeps it at its start. */
  lemma {:induction false} Throughout(c: Config, s: State, es: seq<Event>)
    requires Inv(c, s) && Legal(c, s, es)
    ensures Inv(c, After(c, s, es))
    decreases es
  {
    if es != [] {
      Preserved(c, s, es[0]);
      Throughout(c, Next(c, s, es[0]), es[1..]);
    }
  }

  lemma Reachable(c: Config, s: State, es: seq<Event>)
    requires Init(s) && Legal(c, s, es)
    ensures Inv(c, After(c, s, es))
  {
    Throughout(c, s, es);
  }

  /** Some run leads to the state. */
  ghost predicate Reached(c: Config, t: State) {
    exists s, es :: Init(s) && Leads(c, s, es, t)
  }

  lemma ReachedIsSafe(c: Config, t: State)
    requires Reached(c, t)
    ensures Inv(c, t)
  {
    var s, es :| Init(s) && Leads(c, s, es, t);
    Reachable(c, s, es);
  }

  lemma ReachedOn(c: Config, t: State, u: State)
    requires Reached(c, t)
    requires Proceeds(c, t, u) || exists pid, own :: FollowsOwn(c, t, u, pid, own)
    ensures Reached(c, u)
  {
    var s, fs :| Init(s) && Leads(c, s, fs, t);
    var es :| Leads(c, t, es, u);
    LeadsOn(c, s, fs, t, es, u);
  }

  lemma ReachedNext(c: Config, t: State, e: Event)
    requires Reached(c, t) && Enabled(c, t, e)
    ensures Reached(c, Next(c, t, e))
  {
    OneOwnStep(c, t, e, 1);
    ReachedOn(c, t, Next(c, t, e));
  }
}
