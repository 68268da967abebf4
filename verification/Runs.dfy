/** What holds of whole runs of the task queue. */
module Runs {
  import opened Wrappers
  import opened TaskTable
  import opened Packages
  import opened Protocol
  import opened Invariant

  // ----- Safety of every reachable state -----

  /** No two live workers ever work on the same task, and while the row of a
      worker's task is ACTIVE it names that worker. */
  lemma MutualExclusion(c: Config, s: State, es: seq<Event>, p: Pid, q: Pid)
    requires Init(s) && Legal(c, s, es)
    requires p in After(c, s, es).world.procs && Busy(After(c, s, es).world.procs[p])
    requires q in After(c, s, es).world.procs && Busy(After(c, s, es).world.procs[q])
    ensures
      var w := After(c, s, es).world;
      && w.procs[p].task.Some?
      && (p != q ==> w.procs[p].task != w.procs[q].task)
      && (w.procs[p].task.value in w.rows && !Terminal(w.rows[w.procs[p].task.value]) ==>
            HeldBy(w.rows[w.procs[p].task.value], p))
  {
    Reachable(c, s, es);
    assert ProcOk(After(c, s, es).world, p);
  }

  /** While the manager runs, a claimed row's pid is a tracked worker or waits to
      be reset, exactly unless it is that of a child whose spawn call has not
      returned; and outside a spawn call there is no such child. */
  lemma NothingLost(c: Config, s: State, es: seq<Event>, id: RowId)
    requires Init(s) && Legal(c, s, es)
    requires id in After(c, s, es).world.rows && After(c, s, es).world.rows[id].status.ACTIVE?
    ensures
      var t := After(c, s, es);
      && t.world.rows[id].pid.Some?
      && var pid := t.world.rows[id].pid.value;
      && (pid in t.mgr.workers || pid in Waiting(t.mgr.duty) <==> ForkedBy(t.mgr.duty) != Some(pid))
      && (t.mgr.duty.Sleeping? ==> pid in t.mgr.workers)
  {
    Reachable(c, s, es);
  }

  /** The shape of every row in every reachable state. */
  lemma RowShapes(c: Config, s: State, es: seq<Event>, id: RowId)
    requires Init(s) && Legal(c, s, es) && id in After(c, s, es).world.rows
    ensures
      var t := After(c, s, es).world.rows[id];
      && CheckConstraint(t)
      && (t.status.QUEUED? ==> t.pid.None? && t.started.None?)
      && (t.status.ACTIVE? ==> t.pid.Some? && t.started.Some?)
      && (t.status.QUEUED? || t.status.ACTIVE? ==> t.error.None? && t.completed.None?)
      && (t.status.COMPLETED? ==> t.completed.Some? && t.result.Some?)
      && (t.status.FAILED? ==> t.completed.Some? && t.error.Some?)
  {
    Reachable(c, s, es);
    assert RowOk(After(c, s, es).world.rows[id]);
  }

  /** A pid owns at most one ACTIVE row, so the bulk task's look-up by pid can
      only find the row that this process claimed, and so can its cached id. */
  lemma LookUpIsOwn(c: Config, s: State, es: seq<Event>, pid: Pid, found: RowId)
    requires Init(s) && Legal(c, s, es)
    requires Finds(After(c, s, es).world.rows, pid, Some(found))
      || (pid in After(c, s, es).world.procs && After(c, s, es).world.procs[pid].cached == Some(found))
    ensures
      var w := After(c, s, es).world;
      pid in w.procs && w.procs[pid].task == Some(found)
    ensures forall other: RowId :: Finds(After(c, s, es).world.rows, pid, Some(other)) ==> other == found
  {
    Reachable(c, s, es);
    var w := After(c, s, es).world;
    assert pid in w.procs ==> ProcOk(w, pid);
    forall other: RowId | Finds(w.rows, pid, Some(other)) ensures pid in w.procs && w.procs[pid].task == Some(other) {
      assert HolderOk(w, other);
    }
  }

  /** A progress message is written to the sender's own row only. */
  lemma ProgressIsOwn(c: Config, s: State, es: seq<Event>, pid: Pid, json: string, id: RowId)
    requires Init(s) && Legal(c, s, es) && Enabled(c, After(c, s, es), Env(Progress(pid, json)))
    requires id in After(c, s, es).world.rows
    ensures
      var w := After(c, s, es).world;
      var w' := Act(w, Progress(pid, json));
      id in w'.rows &&
      if Some(id) == w.procs[pid].task
      then w'.rows[id] == w.rows[id].(result := Some(json))
           && (forall q :: q in w.procs && q != pid && Busy(w.procs[q]) ==> w.procs[q].task != Some(id))
           && (w.rows[id].status.ACTIVE? ==> w.rows[id].pid == Some(pid))
      else w'.rows[id] == w.rows[id]
  {
    Reachable(c, s, es);
    assert ProcOk(After(c, s, es).world, pid);
  }

  /** Rows enter the queue by being created or put back and leave it by being
      claimed, and in no other way; so there are never more claims than the two together. */
  lemma Conservation(c: Config, s: State, es: seq<Event>)
    requires Init(s) && Legal(c, s, es)
    ensures
      var w := After(c, s, es).world;
      && w.tally.enqueued + w.tally.requeued == w.tally.claimed + |Queued(w.rows)|
      && w.tally.claimed <= w.tally.enqueued + w.tally.requeued
  {
    Reachable(c, s, es);
  }

  // ----- One step, seen from the rows -----

  /** Rows known before a step keep their place in the queue and their package,
      stay finished once finished, and do not come back once deleted. */
  ghost predicate Evolves(w: World, w': World) {
    && w.used <= w'.used
    && forall id :: id in w.used && id in w'.rows ==>
      && id in w.rows
      && w'.rows[id].added == w.rows[id].added
      && w'.rows[id].package == w.rows[id].package
      && w'.rows[id].taskType == w.rows[id].taskType && w'.rows[id].args == w.rows[id].args
      && (Terminal(w.rows[id]) ==> Terminal(w'.rows[id]))
  }

  predicate ClaimsRow(e: Event, id: RowId) {
    e.Env? && e.action.Claim? && e.action.id == id
  }

  /** Queued rows stay in the queue until they are claimed. */
  ghost predicate KeepsQueued(w: World, w': World, e: Event) {
    forall id :: id in w.rows && w.rows[id].status.QUEUED? && !ClaimsRow(e, id) ==>
      id in w'.rows && w'.rows[id].status.QUEUED?
  }

  lemma RequestEvolves(w: World, a: Action)
    requires WorldOk(w) && CanAct(w, a) && IsRequest(a)
    ensures Evolves(w, Act(w, a)) && KeepsQueued(w, Act(w, a), Env(a))
  {
    RequestEffect(w, a);
  }

  lemma WorkerEvolves(w: World, a: Action)
    requires WorldOk(w) && CanAct(w, a) && ByWorker(a)
    ensures Evolves(w, Act(w, a)) && KeepsQueued(w, Act(w, a), Env(a))
  {
    OwnRowOnly(w, a);
    if Target(w, a).Some? && Target(w, a).value in w.rows {
      OwnRow(w, a);
    }
  }

  lemma ActionEvolves(w: World, a: Action)
    requires WorldOk(w) && CanAct(w, a)
    ensures Evolves(w, Act(w, a)) && KeepsQueued(w, Act(w, a), Env(a))
  {
    if IsRequest(a) {
      RequestEvolves(w, a);
    } else if ByWorker(a) {
      WorkerEvolves(w, a);
    }
  }

  lemma ManagerEvolves(c: Config, s: State, e: Event)
    requires Enabled(c, s, e) && !e.Env?
    ensures Evolves(s.world, Next(c, s, e).world) && KeepsQueued(s.world, Next(c, s, e).world, e)
  {
  }

  lemma StepEvolves(c: Config, s: State, e: Event)
    requires Inv(c, s) && Enabled(c, s, e)
    ensures Evolves(s.world, Next(c, s, e).world) && KeepsQueued(s.world, Next(c, s, e).world, e)
  {
    if e.Env? {
      ActionEvolves(s.world, e.action);
    } else {
      ManagerEvolves(c, s, e);
    }
  }

  lemma {:induction false} RunEvolves(c: Config, s: State, es: seq<Event>)
    requires Inv(c, s) && Legal(c, s, es)
    ensures Evolves(s.world, After(c, s, es).world)
    decreases es
  {
    if es != [] {
      StepEvolves(c, s, es[0]);
      Preserved(c, s, es[0]);
      RunEvolves(c, Next(c, s, es[0]), es[1..]);
    }
  }

  /** The same of a run that is known only by its ends and by what one process does in it. */
  lemma FollowsEvolves(c: Config, s: State, t: State, pid: Pid, own: seq<Action>)
    requires Reached(c, s) && FollowsOwn(c, s, t, pid, own)
    ensures Evolves(s.world, t.world)
  {
    var es :| Leads(c, s, es, t) && Own(es, pid) == own;
    ReachedIsSafe(c, s);
    RunEvolves(c, s, es);
  }

  /** {COMPLETED, FAILED} is never left, over any further run. */
  lemma FinishedForGood(c: Config, s: State, es: seq<Event>, more: seq<Event>, id: RowId)
    requires Init(s) && Legal(c, s, es + more) && Legal(c, s, es)
    requires id in After(c, s, es).world.rows && Terminal(After(c, s, es).world.rows[id])
    requires id in After(c, s, es + more).world.rows
    ensures Terminal(After(c, s, es + more).world.rows[id])
    ensures After(c, s, es + more).world.rows[id].added == After(c, s, es).world.rows[id].added
  {
    Reachable(c, s, es);
    Concat(c, s, es, more);
    RunEvolves(c, After(c, s, es), more);
  }

  /** A task failed for exceeding its time limit is never put back, although its
      worker's pid goes on the list of the reset that follows. */
  lemma TimedOutIsNeverRequeued(c: Config, s: State, es: seq<Event>, id: RowId, more: seq<Event>)
    requires Init(s) && Legal(c, s, es)
    requires Enabled(c, After(c, s, es), CheckDuration(Some(id))) && Overdue(c, After(c, s, es).world, Some(id))
    requires Legal(c, Next(c, After(c, s, es), CheckDuration(Some(id))), more)
    ensures
      var t := After(c, s, es);
      var failed := Next(c, t, CheckDuration(Some(id)));
      && failed.world.rows[id].status.FAILED? && failed.world.rows[id].error == Some(c.timeoutMessage)
      && t.world.rows[id].pid.Some? && t.world.rows[id].pid.value in Waiting(failed.mgr.duty)
      && (id in After(c, failed, more).world.rows ==> Terminal(After(c, failed, more).world.rows[id]))
  {
    Reachable(c, s, es);
    var t := After(c, s, es);
    Preserved(c, t, CheckDuration(Some(id)));
    RunEvolves(c, Next(c, t, CheckDuration(Some(id))), more);
  }

  // ----- Claims -----

  ghost function ClaimsBy(es: seq<Event>, pid: Pid): nat {
    if es == [] then 0
    else (if es[0].Env? && es[0].action.Claim? && es[0].action.pid == pid then 1 else 0) + ClaimsBy(es[1..], pid)
  }

  lemma StaysPastIdle(c: Config, s: State, e: Event, pid: Pid)
    requires Enabled(c, s, e) && pid in s.world.procs
    ensures pid in Next(c, s, e).world.procs
    ensures !s.world.procs[pid].stage.Idle? ==> !Next(c, s, e).world.procs[pid].stage.Idle?
  {
  }

  lemma {:induction false} ClaimsLeft(c: Config, s: State, es: seq<Event>, pid: Pid)
    requires Inv(c, s) && Legal(c, s, es)
    ensures ClaimsBy(es, pid) <= if pid in s.world.procs && !s.world.procs[pid].stage.Idle? then 0 else 1
    decreases es
  {
    if es != [] {
      Preserved(c, s, es[0]);
      if pid in s.world.procs {
        StaysPastIdle(c, s, es[0], pid);
      }
      ClaimsLeft(c, Next(c, s, es[0]), es[1..], pid);
    }
  }

  /** A worker claims at most one task in its life. */
  lemma OneClaimPerWorker(c: Config, s: State, es: seq<Event>, pid: Pid)
    requires Init(s) && Legal(c, s, es)
    ensures ClaimsBy(es, pid) <= 1
  {
    ClaimsLeft(c, s, es, pid);
  }

  /** The clock at the last claim of the row in a run. */
  ghost function LastClaim(c: Config, s: State, es: seq<Event>, id: RowId): Option<Time>
    requires Legal(c, s, es)
    decreases es
  {
    if es == [] then None
    else
      var later := LastClaim(c, Next(c, s, es[0]), es[1..], id);
      if later.Some? then later else if ClaimsRow(es[0], id) then Some(s.world.clock) else None
  }

  /** An ACTIVE row has been so before the step, with the same start time, unless
      the step claims it; then it starts at the present time. */
  lemma StartedKept(c: Config, s: State, e: Event, id: RowId)
    requires Inv(c, s) && Enabled(c, s, e)
    requires id in Next(c, s, e).world.rows && Next(c, s, e).world.rows[id].status.ACTIVE?
    ensures ClaimsRow(e, id) ==> Next(c, s, e).world.rows[id].started == Some(s.world.clock)
    ensures !ClaimsRow(e, id) ==>
      && id in s.world.rows && s.world.rows[id].status.ACTIVE?
      && Next(c, s, e).world.rows[id].started == s.world.rows[id].started
  {
    if e.Env? && IsRequest(e.action) {
      RequestEffect(s.world, e.action);
    } else if e.Env? && ByWorker(e.action) {
      StartedByWorker(s.world, e.action, id);
    }
  }

  lemma StartedByWorker(w: World, a: Action, id: RowId)
    requires WorldOk(w) && CanAct(w, a) && ByWorker(a)
    requires id in Act(w, a).rows && Act(w, a).rows[id].status.ACTIVE?
    ensures ClaimsRow(Env(a), id) ==> Act(w, a).rows[id].started == Some(w.clock)
    ensures !ClaimsRow(Env(a), id) ==>
      id in w.rows && w.rows[id].status.ACTIVE? && Act(w, a).rows[id].started == w.rows[id].started
  {
    OwnRowOnly(w, a);
    if Some(id) == Target(w, a) {
      OwnRow(w, a);
    }
  }

  lemma {:induction false} StartedFrom(c: Config, s: State, es: seq<Event>, id: RowId)
    requires Inv(c, s) && Legal(c, s, es)
    requires id in After(c, s, es).world.rows && After(c, s, es).world.rows[id].status.ACTIVE?
    ensures
      var started := After(c, s, es).world.rows[id].started;
      if LastClaim(c, s, es, id).Some? then started == LastClaim(c, s, es, id)
      else id in s.world.rows && s.world.rows[id].status.ACTIVE? && started == s.world.rows[id].started
    decreases es
  {
    if es != [] {
      var next := Next(c, s, es[0]);
      Preserved(c, s, es[0]);
      StartedFrom(c, next, es[1..], id);
      if LastClaim(c, next, es[1..], id).None? {
        StartedKept(c, s, es[0], id);
      }
    }
  }

  /** In every run the start time of an ACTIVE row is the time at which it was last claimed. */
  lemma StartedWhenClaimed(c: Config, s: State, es: seq<Event>, id: RowId)
    requires Init(s) && Legal(c, s, es)
    requires id in After(c, s, es).world.rows && After(c, s, es).world.rows[id].status.ACTIVE?
    ensures LastClaim(c, s, es, id).Some? && After(c, s, es).world.rows[id].started == LastClaim(c, s, es, id)
  {
    StartedFrom(c, s, es, id);
  }

  /** The duration check of a worker fails the row it finds exactly when more than
      the time limit has passed since that row was claimed, and touches no other. */
  lemma TimesOutIff(c: Config, s: State, es: seq<Event>, found: Option<RowId>, id: RowId)
    requires Init(s) && Legal(c, s, es) && Enabled(c, After(c, s, es), CheckDuration(found))
    requires id in After(c, s, es).world.rows
    ensures
      var t := After(c, s, es);
      var t' := Next(c, t, CheckDuration(found));
      && id in t'.world.rows
      && (t'.world.rows[id] != t.world.rows[id] <==>
            found == Some(id) && LastClaim(c, s, es, id).Some?
            && t.world.clock - LastClaim(c, s, es, id).value > c.maxTaskSeconds)
      && (t'.world.rows[id] != t.world.rows[id] ==>
            t'.world.rows[id].status.FAILED? && t'.world.rows[id].error == Some(c.timeoutMessage))
  {
    if found == Some(id) {
      StartedWhenClaimed(c, s, es, id);
    }
  }

  ghost predicate ClaimedIn(es: seq<Event>, id: RowId) {
    exists i :: 0 <= i < |es| && ClaimsRow(es[i], id)
  }

  lemma {:induction false} QueuedUntilClaimed(c: Config, s: State, es: seq<Event>, id: RowId)
    requires Inv(c, s) && Legal(c, s, es) && !ClaimedIn(es, id)
    requires id in s.world.rows && s.world.rows[id].status.QUEUED?
    ensures id in After(c, s, es).world.rows && After(c, s, es).world.rows[id].status.QUEUED?
    decreases es
  {
    if es != [] {
      assert !ClaimsRow(es[0], id);
      assert forall i :: 0 <= i < |es[1..]| ==> es[1..][i] == es[i + 1];
      StepEvolves(c, s, es[0]);
      Preserved(c, s, es[0]);
      QueuedUntilClaimed(c, Next(c, s, es[0]), es[1..], id);
    }
  }

  /** The queue is a priority queue on `added`, over runs of any length: when an
      older and a younger task are both queued, the younger is not claimed before the older. */
  lemma NoOvertaking(c: Config, s: State, before: seq<Event>, between: seq<Event>, older: RowId, younger: RowId, pid: Pid)
    requires Init(s) && Legal(c, s, before)
    requires var rows := After(c, s, before).world.rows;
      && older in rows && rows[older].status.QUEUED?
      && younger in rows && rows[younger].status.QUEUED?
      && rows[older].added < rows[younger].added
    requires Legal(c, After(c, s, before), between + [Env(Claim(pid, younger))])
    ensures ClaimedIn(between, older)
  {
    Reachable(c, s, before);
    var t := After(c, s, before);
    var last := [Env(Claim(pid, younger))];
    PrefixLegal(c, t, between, last);
    Concat(c, t, between, last);
    assert Enabled(c, After(c, t, between), last[0]);
    RunEvolves(c, t, between);
    if !ClaimedIn(between, older) {
      QueuedUntilClaimed(c, t, between, older);
    }
  }

  lemma {:induction false} PrefixLegal(c: Config, s: State, es: seq<Event>, fs: seq<Event>)
    requires Legal(c, s, es + fs)
    ensures Legal(c, s, es)
    decreases es
  {
    if es != [] {
      assert (es + fs)[0] == es[0] && (es + fs)[1..] == es[1..] + fs;
      PrefixLegal(c, Next(c, s, es[0]), es[1..], fs);
    }
  }

  // ----- Recovery from a dead worker -----

  /** The worker is dead, holds the row, and this pass has still to deal with it. */
  ghost predicate Pending(s: State, pid: Pid, id: RowId, row: Task) {
    var d := s.mgr.duty;
    && pid in s.world.procs && s.world.procs[pid].stage.Exited?
    && id in s.world.rows && s.world.rows[id] == row && HeldBy(row, pid)
    && (d.Checking? || d.Refilling? || d.Resetting?)
    && (pid in Waiting(d) || (d.Checking? && pid in d.todo))
    && (d.Checking? && d.alive && d.todo != [] ==> d.todo[0] != pid)
  }

  /** The row of a dead worker is touched neither by requests nor by other workers. */
  lemma RowOfDead(w: World, a: Action, pid: Pid, id: RowId)
    requires WorldOk(w) && CanAct(w, a) && pid in w.procs && w.procs[pid].stage.Exited?
    requires id in w.rows && HeldBy(w.rows[id], pid)
    ensures id in Act(w, a).rows && Act(w, a).rows[id] == w.rows[id]
    ensures pid in Act(w, a).procs && Act(w, a).procs[pid] == w.procs[pid]
  {
    assert HolderOk(w, id);
    if IsRequest(a) {
      RequestEffect(w, a);
    } else if ByWorker(a) {
      OwnRowOnly(w, a);
      assert ProcOk(w, a.pid);
    }
  }

  lemma PendingActed(c: Config, s: State, a: Action, pid: Pid, id: RowId, row: Task)
    requires Inv(c, s) && CanAct(s.world, a) && Pending(s, pid, id, row)
    ensures Pending(Next(c, s, Env(a)), pid, id, row)
  {
    RowOfDead(s.world, a, pid, id);
  }

  lemma StaysPending(c: Config, s: State, e: Event, pid: Pid, id: RowId, row: Task)
    requires Inv(c, s) && Enabled(c, s, e) && Pending(s, pid, id, row) && !e.Reset?
    ensures Pending(Next(c, s, e), pid, id, row)
  {
    if e.Env? {
      PendingActed(c, s, e.action, pid, id, row);
    }
  }

  lemma {:induction false} PendingUntilReset(c: Config, s: State, es: seq<Event>, pid: Pid, id: RowId, row: Task)
    requires Inv(c, s) && Legal(c, s, es) && Pending(s, pid, id, row)
    requires NoReset(es)
    ensures Pending(After(c, s, es), pid, id, row)
    decreases es
  {
    if es != [] {
      StaysPending(c, s, es[0], pid, id, row);
      Preserved(c, s, es[0]);
      PendingUntilReset(c, Next(c, s, es[0]), es[1..], pid, id, row);
    }
  }

  lemma BeginsPending(c: Config, s: State, order: seq<Pid>, pid: Pid, id: RowId)
    requires Enabled(c, s, BeginPass(order)) && LeftRow(s, pid, id)
    ensures Pending(Next(c, s, BeginPass(order)), pid, id, s.world.rows[id])
  {
  }

  lemma PendingRowIsReset(c: Config, s: State, pid: Pid, id: RowId, row: Task)
    requires Pending(s, pid, id, row) && Enabled(c, s, Reset)
    ensures id in Next(c, s, Reset).world.rows && Next(c, s, Reset).world.rows[id] == Requeue(row)
  {
  }

  lemma ResetNext(c: Config, s: State, pid: Pid, id: RowId, row: Task)
    requires Pending(s, pid, id, row)
    ensures Enabled(c, s, Reset) ==>
      id in Next(c, s, Reset).world.rows &&
      Next(c, s, Reset).world.rows[id] == row.(status := QUEUED, started := None, pid := None)
  {
    if Enabled(c, s, Reset) {
      PendingRowIsReset(c, s, pid, id, row);
    }
  }

  /** The row is as it was, the pass is not over, and the reset, when it comes, puts the row back. */
  ghost predicate AwaitsReset(c: Config, s: State, id: RowId, row: Task) {
    && !s.mgr.duty.Sleeping?
    && id in s.world.rows && s.world.rows[id] == row
    && (Enabled(c, s, Reset) ==>
          && id in Next(c, s, Reset).world.rows
          && Next(c, s, Reset).world.rows[id] == row.(status := QUEUED, started := None, pid := None))
  }

  ghost predicate NoReset(es: seq<Event>) {
    forall i :: 0 <= i < |es| ==> !es[i].Reset?
  }

  lemma PendingAwaitsReset(c: Config, s: State, es: seq<Event>, pid: Pid, id: RowId, row: Task)
    requires Inv(c, s) && Legal(c, s, es) && Pending(s, pid, id, row) && NoReset(es)
    ensures AwaitsReset(c, After(c, s, es), id, row)
  {
    PendingUntilReset(c, s, es, pid, id, row);
    ResetNext(c, After(c, s, es), pid, id, row);
  }

  /** The worker is tracked, has gone, and left a claimed row. */
  predicate LeftRow(s: State, pid: Pid, id: RowId) {
    && pid in s.mgr.workers && pid in s.world.procs && s.world.procs[pid].stage.Exited?
    && id in s.world.rows && HeldBy(s.world.rows[id], pid)
  }

  lemma PassBegins(c: Config, s: State, order: seq<Pid>, pid: Pid, id: RowId)
    requires Reached(c, s) && Enabled(c, s, BeginPass(order)) && LeftRow(s, pid, id)
    ensures Inv(c, Next(c, s, BeginPass(order)))
    ensures Pending(Next(c, s, BeginPass(order)), pid, id, s.world.rows[id])
  {
    ReachedIsSafe(c, s);
    Preserved(c, s, BeginPass(order));
    BeginsPending(c, s, order, pid, id);
  }

  /** When a pass begins with a dead worker among the tracked ones, then, however
      the rest of the system interleaves with the pass, the row it held stays
      untouched until the pass's reset, the pass cannot end without that reset,
      and the reset puts the row back where it was in the queue. */
  lemma DeadWorkersTaskIsRequeued(c: Config, s: State, order: seq<Pid>, pid: Pid, id: RowId, pass: seq<Event>)
    requires Reached(c, s) && Enabled(c, s, BeginPass(order)) && LeftRow(s, pid, id)
    requires Legal(c, Next(c, s, BeginPass(order)), pass) && NoReset(pass)
    ensures AwaitsReset(c, After(c, Next(c, s, BeginPass(order)), pass), id, s.world.rows[id])
  {
    PassBegins(c, s, order, pid, id);
    PendingAwaitsReset(c, Next(c, s, BeginPass(order)), pass, pid, id, s.world.rows[id]);
  }

  /** At u the reset is next, and it puts the row back; the rest of the pass leads to t. */
  ghost predicate RequeuedAt(c: Config, u: State, t: State, id: RowId, row: Task) {
    && Enabled(c, u, Reset) && id in u.world.rows && u.world.rows[id] == row
    && id in Next(c, u, Reset).world.rows
    && Next(c, u, Reset).world.rows[id] == row.(status := QUEUED, started := None, pid := None)
    && Proceeds(c, Next(c, u, Reset), t)
  }

  lemma {:induction false} FirstReset(es: seq<Event>) returns (k: nat)
    requires exists i :: 0 <= i < |es| && es[i].Reset?
    ensures k < |es| && es[k].Reset? && forall i :: 0 <= i < k ==> !es[i].Reset?
  {
    k := 0;
    while !es[k].Reset?
      invariant k < |es| && forall i :: 0 <= i < k ==> !es[i].Reset?
      invariant exists i :: k <= i < |es| && es[i].Reset?
      decreases |es| - k
    {
      k := k + 1;
    }
  }

  lemma ResetDuring(c: Config, began: State, es: seq<Event>, t: State, pid: Pid, id: RowId, row: Task) returns (u: State)
    requires Inv(c, began) && Pending(began, pid, id, row)
    requires Leads(c, began, es, t) && NoNewPass(es) && t.mgr.duty.Sleeping?
    ensures RequeuedAt(c, u, t, id, row)
  {
    if !(exists i :: 0 <= i < |es| && es[i].Reset?) {
      PendingUntilReset(c, began, es, pid, id, row);
    }
    var k := FirstReset(es);
    assert es == es[..k] + es[k..];
    PrefixLegal(c, began, es[..k], es[k..]);
    u := After(c, began, es[..k]);
    PendingUntilReset(c, began, es[..k], pid, id, row);
    Concat(c, began, es[..k], es[k..]);
    FromReset(c, u, es[k..], t, pid, id, row);
  }

  lemma FromReset(c: Config, u: State, es: seq<Event>, t: State, pid: Pid, id: RowId, row: Task)
    requires Leads(c, u, es, t) && NoNewPass(es) && es != [] && es[0].Reset?
    requires Pending(u, pid, id, row)
    ensures RequeuedAt(c, u, t, id, row)
  {
    PendingRowIsReset(c, u, pid, id, row);
    assert Leads(c, Next(c, u, Reset), es[1..], t) && NoNewPass(es[1..]);
  }

  /** Every complete pass puts back the row of every worker that was dead when it began. */
  lemma PassRecovers(c: Config, s: State, t: State, pid: Pid, id: RowId)
    requires Reached(c, s) && Pass(c, s, t) && t.mgr.duty.Sleeping?
    requires LeftRow(s, pid, id)
    ensures exists u: State :: RequeuedAt(c, u, t, id, s.world.rows[id])
  {
    var order :| Enabled(c, s, BeginPass(order)) && Proceeds(c, Next(c, s, BeginPass(order)), t);
    var began := Next(c, s, BeginPass(order));
    var es :| Leads(c, began, es, t) && NoNewPass(es);
    PassBegins(c, s, order, pid, id);
    var u := ResetDuring(c, began, es, t, pid, id, s.world.rows[id]);
  }

  /** The reset changes exactly the claimed rows whose pid is on its list, and
      the process of each such row is gone. */
  lemma ResetIsExact(c: Config, s: State, es: seq<Event>, id: RowId)
    requires Init(s) && Legal(c, s, es) && Enabled(c, After(c, s, es), Reset)
    requires id in After(c, s, es).world.rows
    ensures
      var t := After(c, s, es);
      var row, row' := t.world.rows[id], Next(c, t, Reset).world.rows[id];
      && (row' != row <==> row.status.ACTIVE? && row.pid.Some? && row.pid.value in t.mgr.duty.exited)
      && (row' != row ==>
            && row' == Requeue(row)
            && row.pid.value in t.world.procs && t.world.procs[row.pid.value].stage.Exited?)
  {
    Reachable(c, s, es);
    var t := After(c, s, es);
    if t.world.rows[id].status.ACTIVE? {
      assert HolderOk(t.world, id);
      var pid := t.world.rows[id].pid.value;
      assert pid in Waiting(t.mgr.duty) ==> Dismissed(t.world, pid);
    }
  }

  // ----- The pool -----

  /** The pool never grows beyond min_workers, and it has exactly that size
      whenever the refill of a pass ends and whenever a reset runs. */
  lemma PoolSize(c: Config, s: State, es: seq<Event>)
    requires Init(s) && Legal(c, s, es)
    ensures
      var t := After(c, s, es);
      && |t.mgr.workers| <= c.minWorkers && |t.mgr.workers| <= c.maxWorkers
      && (Enabled(c, t, PoolFull) || Enabled(c, t, Reset) ==> |t.mgr.workers| == c.minWorkers)
  {
    Reachable(c, s, es);
  }

  /** How many steps the manager has left in what it is doing. */
  ghost function StepsLeft(c: Config, m: Manager): nat
    requires PoolOk(c, m)
  {
    var refill := c.minWorkers - |m.workers|;
    match m.duty
    case NotStarted => 0
    case Sleeping => 0
    case Starting(left, forked) => 2 * left + 1 - (if forked.Some? then 1 else 0)
    case Checking(todo, _, alive) => 2 * |todo| + (if alive then 0 else 1) + 2 * c.minWorkers + 3
    case Refilling(_, forked) => 2 * refill + 2 - (if forked.Some? then 1 else 0)
    case Resetting(_) => 1
  }

  predicate Progresses(e: Event) {
    !e.Env? && !e.SpawnFail? && !e.Start? && !e.BeginPass?
  }

  ghost function CountProgress(es: seq<Event>): nat {
    if es == [] then 0 else (if Progresses(es[0]) then 1 else 0) + CountProgress(es[1..])
  }

  lemma SpawnStepsDecrease(c: Config, s: State, e: Event)
    requires PoolOk(c, s.mgr) && PidsOk(s) && Enabled(c, s, e) && (e.Fork? || e.Track? || e.SpawnFail?)
    requires PoolOk(c, Next(c, s, e).mgr)
    ensures StepsLeft(c, Next(c, s, e).mgr) + (if Progresses(e) then 1 else 0) <= StepsLeft(c, s.mgr)
  {
  }

  lemma StepsDecrease(c: Config, s: State, e: Event)
    requires PoolOk(c, s.mgr) && PidsOk(s) && Enabled(c, s, e) && !e.Start? && !e.BeginPass?
    requires PoolOk(c, Next(c, s, e).mgr)
    ensures StepsLeft(c, Next(c, s, e).mgr) + (if Progresses(e) then 1 else 0) <= StepsLeft(c, s.mgr)
  {
    if e.Fork? || e.Track? || e.SpawnFail? {
      SpawnStepsDecrease(c, s, e);
    }
  }

  /** A pass ends after a bounded number of the manager's steps, failed spawns aside. */
  lemma {:induction false} PassIsBounded(c: Config, s: State, es: seq<Event>)
    requires Inv(c, s) && Legal(c, s, es)
    requires forall i :: 0 <= i < |es| ==> !es[i].Start? && !es[i].BeginPass?
    ensures CountProgress(es) <= StepsLeft(c, s.mgr)
    decreases es
  {
    if es != [] {
      Preserved(c, s, es[0]);
      StepsDecrease(c, s, es[0]);
      PassIsBounded(c, Next(c, s, es[0]), es[1..]);
    }
  }

  lemma {:induction false} FreshPid(pids: set<Pid>) returns (p: Pid)
    ensures p !in pids
    ensures forall q: Pid :: q in pids ==> q < p
    decreases pids
  {
    if pids == {} {
      p := 1;
    } else {
      var q :| q in pids;
      var rest := pids - {q};
      p := FreshPid(rest);
      assert forall r: Pid :: r in pids ==> r == q || r in rest;
      p := if q < p then p else q + 1;
    }
  }

  ghost predicate CanFill(c: Config, s: State, es: seq<Event>) {
    Legal(c, s, es) && Enabled(c, After(c, s, es), PoolFull)
  }

  lemma {:induction false} Refill(c: Config, s: State) returns (es: seq<Event>)
    requires Inv(c, s) && s.mgr.duty.Refilling? && c.minWorkers <= c.maxWorkers
    ensures CanFill(c, s, es)
    decreases StepsLeft(c, s.mgr)
  {
    if Enabled(c, s, PoolFull) {
      es := [];
    } else {
      var e := Track;
      if s.mgr.duty.forked.None? {
        var p := FreshPid(s.world.procs.Keys);
        e := Fork(p);
      }
      Preserved(c, s, e);
      StepsDecrease(c, s, e);
      var rest := Refill(c, Next(c, s, e));
      es := [e] + rest;
    }
  }

  /** The refill loop can end if and only if min_workers <= max_workers: with a
      smaller maximum, spawn_worker returns at once for ever. */
  lemma RefillEndsIff(c: Config, s: State)
    requires Inv(c, s) && s.mgr.duty.Refilling?
    ensures c.minWorkers <= c.maxWorkers <==> exists es :: CanFill(c, s, es)
  {
    if c.minWorkers <= c.maxWorkers {
      var es := Refill(c, s);
      assert CanFill(c, s, es);
    } else {
      forall es ensures !CanFill(c, s, es) {
        if Legal(c, s, es) {
          Throughout(c, s, es);
        }
      }
    }
  }

  // ----- Packages -----

  /** A package never has more than seven unfinished verification tasks. */
  lemma SevenAtMost(c: Config, s: State, es: seq<Event>, sha: string)
    requires Init(s) && Legal(c, s, es)
    ensures |UnfinishedOf(After(c, s, es).world.rows, sha)| <= 7
  {
    Reachable(c, s, es);
    assert PackageOk(After(c, s, es).world, sha);
  }

  /** Over any run, a check is accepted exactly when the package is ready and none
      of its tasks is unfinished; then exactly seven new queued rows of the package
      are added.  No row is ever deleted or changed. */
  lemma CheckAdds(c: Config, s: State, es: seq<Event>, sha: string, slots: seq<Slot>)
    requires Init(s) && Legal(c, s, es)
    requires Enabled(c, After(c, s, es), Env(CheckRequest(sha, slots)))
    ensures
      var w := After(c, s, es).world;
      var (reply, rows') := Check(w.rows, w.packages, sha, slots);
      && (reply.Accepted? <==> sha in w.packages && Ready(w.packages[sha]) && UnfinishedOf(w.rows, sha) == {})
      && rows'.Keys == w.rows.Keys + (if reply.Accepted? then SlotIds(slots) else {}) && |SlotIds(slots)| == 7
      && (forall id :: id in w.rows ==> rows'[id] == w.rows[id])
      && (reply.Accepted? ==> forall id :: id in SlotIds(slots) ==>
            id !in w.rows && rows'[id].status.QUEUED? && rows'[id].package == Some(sha))
  {
    Reachable(c, s, es);
    SlotCount(slots);
    CheckedRows(After(c, s, es).world, sha, slots);
  }

  lemma CheckedRows(w: World, sha: string, slots: seq<Slot>)
    requires FreshSlots(slots, {}) && FreshSlots(slots, w.used) && w.rows.Keys <= w.used
    ensures
      var (reply, rows') := Check(w.rows, w.packages, sha, slots);
      && (reply.Accepted? <==> sha in w.packages && Ready(w.packages[sha]) && UnfinishedOf(w.rows, sha) == {})
      && rows'.Keys == w.rows.Keys + (if reply.Accepted? then SlotIds(slots) else {})
      && (forall id :: id in w.rows ==> rows'[id] == w.rows[id])
      && (reply.Accepted? ==> forall id :: id in SlotIds(slots) ==>
            id !in w.rows && rows'[id].status.QUEUED? && rows'[id].package == Some(sha))
  {
    if sha in w.packages && Ready(w.packages[sha]) {
      var added := NewRows(sha, w.packages[sha], slots);
      assert SlotIds(slots) !! w.rows.Keys;
    }
  }

  /** Over any run, a restart is accepted exactly when the package is ready and
      none of its tasks is unfinished; then the package is left with exactly
      seven tasks, all new and queued.  Otherwise the restart deletes nothing. */
  lemma RestartReplaces(c: Config, s: State, es: seq<Event>, sha: string, slots: seq<Slot>)
    requires Init(s) && Legal(c, s, es)
    requires Enabled(c, After(c, s, es), Env(RestartRequest(sha, slots)))
    ensures
      var w := After(c, s, es).world;
      var (reply, rows') := Restart(w.rows, w.packages, sha, slots);
      && (reply.Accepted? <==> sha in w.packages && Ready(w.packages[sha]) && UnfinishedOf(w.rows, sha) == {})
      && (reply.Accepted? ==>
            && RowsOf(rows', sha) == SlotIds(slots) && |RowsOf(rows', sha)| == 7
            && (forall id :: id in rows' && rows'[id].package == Some(sha) ==>
                  id in SlotIds(slots) && id !in w.rows && rows'[id].status.QUEUED? && FreshTask(rows'[id]))
            && (forall id :: id in w.rows && w.rows[id].package != Some(sha) ==> id in rows' && rows'[id] == w.rows[id]))
      && (!reply.Accepted? ==> rows' == w.rows)
  {
    Reachable(c, s, es);
    var w := After(c, s, es).world;
    assert PackageOk(w, sha);
    SlotCount(slots);
    RequestEffect(w, RestartRequest(sha, slots));
    RestartDeletes(w.rows, w.packages, sha, slots);
    if Restart(w.rows, w.packages, sha, slots).0.Accepted? {
      RestartedRows(w, sha, slots);
    }
  }

  lemma RestartedRows(w: World, sha: string, slots: seq<Slot>)
    requires FreshSlots(slots, {}) && FreshSlots(slots, w.used) && w.rows.Keys <= w.used
    requires Restart(w.rows, w.packages, sha, slots).0.Accepted?
    ensures RowsOf(Restart(w.rows, w.packages, sha, slots).1, sha) == SlotIds(slots)
    ensures forall id :: id in w.rows && w.rows[id].package != Some(sha) ==>
      id in Restart(w.rows, w.packages, sha, slots).1 && Restart(w.rows, w.packages, sha, slots).1[id] == w.rows[id]
    ensures forall id :: id in SlotIds(slots) ==> FreshTask(Restart(w.rows, w.packages, sha, slots).1[id]) && id !in w.rows
  {
    var added := NewRows(sha, w.packages[sha], slots);
  }

  /** Taken by itself, a restart loses results exactly when the package has
      tasks, all of them finished, but no signature or no committee: then the
      deletions are committed and nothing is created. */
  lemma RestartDeletes(rows: Table, packages: map<string, Package>, sha: string, slots: seq<Slot>)
    requires FreshSlots(slots, {})
    ensures
      var (reply, rows') := Restart(rows, packages, sha, slots);
      (!reply.Accepted? && rows' != rows) <==>
        sha in packages && !Ready(packages[sha]) && UnfinishedOf(rows, sha) == {} && RowsOf(rows, sha) != {}
  {
    if id :| id in RowsOf(rows, sha) {
      assert id !in rows - RowsOf(rows, sha);
    } else {
      assert rows - RowsOf(rows, sha) == rows;
    }
  }
}
