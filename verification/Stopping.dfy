/** Stopping the manager, and the rows that this leaves behind. */
module Stopping {
  import opened Wrappers
  import opened TaskTable
  import opened Packages
  import opened Protocol
  import opened Invariant
  import opened Witnesses

  /** stop and stop_all_workers: the manager drops what it was doing, whatever that
      was; the processes in `gone` have ended, among them all tracked workers;
      and the workers dictionary is cleared.  No row is touched. */
  function Stopped(s: State, gone: set<Pid>): State
    requires s.mgr.workers <= gone
  {
    State(s.world.(procs := EndAll(s.world.procs, gone)), Manager({}, NotStarted))
  }

  function EndAll(procs: map<Pid, Proc>, gone: set<Pid>): map<Pid, Proc> {
    map p | p in procs :: if p in gone then procs[p].(stage := Exited) else procs[p]
  }

  /** A claimed row whose process is gone and which the manager does not know. */
  ghost predicate Orphaned(s: State, id: RowId, row: Task) {
    && s.world.rows.Keys <= s.world.used
    && id in s.world.rows && s.world.rows[id] == row && row.status.ACTIVE? && row.pid.Some?
    && row.pid.value in s.world.procs && s.world.procs[row.pid.value].stage.Exited?
    && !Tracked(s.mgr, row.pid.value)
    && (s.mgr.duty.Checking? ==> row.pid.value !in s.mgr.duty.todo)
    && (forall q :: q in s.world.procs && !s.world.procs[q].stage.Exited? ==>
          s.world.procs[q].task != Some(id) && s.world.procs[q].cached != Some(id))
  }

  lemma OrphanKept(c: Config, s: State, e: Event, id: RowId, row: Task)
    requires Orphaned(s, id, row) && Enabled(c, s, e)
    ensures Orphaned(Next(c, s, e), id, row)
  {
    if e.Env? {
      OrphanActed(s.world, e.action, id, row);
    }
  }

  lemma OrphanActed(w: World, a: Action, id: RowId, row: Task)
    requires CanAct(w, a) && w.rows.Keys <= w.used
    requires id in w.rows && w.rows[id] == row && row.status.ACTIVE? && row.pid.Some?
    requires row.pid.value in w.procs && w.procs[row.pid.value].stage.Exited?
    requires forall q :: q in w.procs && !w.procs[q].stage.Exited? ==> w.procs[q].task != Some(id) && w.procs[q].cached != Some(id)
    ensures
      var w' := Act(w, a);
      && w'.rows.Keys <= w'.used && id in w'.rows && w'.rows[id] == row
      && row.pid.value in w'.procs && w'.procs[row.pid.value].stage.Exited?
      && forall q :: q in w'.procs && !w'.procs[q].stage.Exited? ==> w'.procs[q].task != Some(id) && w'.procs[q].cached != Some(id)
  {
    if IsRequest(a) && a.sha in w.packages && UnfinishedOf(w.rows, a.sha) == {} {
      NothingUnfinished(w.rows, a.sha);
    }
  }

  /** Such a row stays claimed for ever: nothing finishes it and nothing puts it back. */
  lemma {:induction false} OrphansAreNeverRecovered(c: Config, s: State, es: seq<Event>, id: RowId, row: Task)
    requires Orphaned(s, id, row) && Legal(c, s, es)
    ensures Orphaned(After(c, s, es), id, row)
    decreases es
  {
    if es != [] {
      OrphanKept(c, s, es[0], id, row);
      OrphansAreNeverRecovered(c, Next(c, s, es[0]), es[1..], id, row);
    }
  }

  lemma {:induction false} StaysGone(c: Config, s: State, es: seq<Event>, pid: Pid)
    requires Legal(c, s, es) && pid in s.world.procs && s.world.procs[pid].stage.Exited?
    ensures pid in After(c, s, es).world.procs && After(c, s, es).world.procs[pid].stage.Exited?
    decreases es
  {
    if es != [] {
      GoneStays(c, s, es[0], pid);
      StaysGone(c, Next(c, s, es[0]), es[1..], pid);
    }
  }

  lemma GoneStays(c: Config, s: State, e: Event, pid: Pid)
    requires Enabled(c, s, e) && pid in s.world.procs && s.world.procs[pid].stage.Exited?
    ensures pid in Next(c, s, e).world.procs && Next(c, s, e).world.procs[pid].stage.Exited?
  {
  }

  ghost predicate Gone(w: World, pids: set<Pid>) {
    forall p :: p in pids ==> p in w.procs && w.procs[p].stage.Exited?
  }

  lemma ProceedsGone(c: Config, s: State, t: State, pids: set<Pid>)
    requires Proceeds(c, s, t) && Gone(s.world, pids)
    ensures Gone(t.world, pids)
  {
    var es :| Leads(c, s, es, t) && NoNewPass(es);
    forall p | p in pids ensures p in t.world.procs && t.world.procs[p].stage.Exited? {
      StaysGone(c, s, es, p);
    }
  }

  /** The system goes on for a while, until all tracked workers are gone; the stop is complete then. */
  ghost predicate StopsFrom(c: Config, s: State, stopped: State) {
    exists t :: Proceeds(c, s, t) && t.mgr == s.mgr && Gone(t.world, t.mgr.workers) && stopped == Stopped(t, t.mgr.workers)
  }

  /** Once the tracked workers are gone, clearing the dictionary is all that a stop still does. */
  lemma StoppedWhenGone(s: State)
    requires Gone(s.world, s.mgr.workers)
    ensures Stopped(s, s.mgr.workers) == State(s.world, Manager({}, NotStarted))
  {
    assert EndAll(s.world.procs, s.mgr.workers) == s.world.procs;
  }

  /** The row is claimed, and stays as it is in every continuation, which may
      start the manager again. */
  ghost predicate StuckForEver(c: Config, s: State, id: RowId) {
    && id in s.world.rows && s.world.rows[id].status.ACTIVE?
    && forall es :: Legal(c, s, es) ==> Untouched(c, s, es, id)
  }

  ghost predicate Untouched(c: Config, s: State, es: seq<Event>, id: RowId)
    requires Legal(c, s, es) && id in s.world.rows
  {
    id in After(c, s, es).world.rows && After(c, s, es).world.rows[id] == s.world.rows[id]
  }

  /** The row is claimed, and its process is gone once the manager has stopped. */
  predicate LosesHolder(s: State, gone: set<Pid>, id: RowId) {
    && id in s.world.rows && s.world.rows[id].status.ACTIVE? && s.world.rows[id].pid.Some?
    && var pid := s.world.rows[id].pid.value;
       pid in s.world.procs && (pid in gone || s.world.procs[pid].stage.Exited?)
  }

  lemma StopOrphans(c: Config, s: State, gone: set<Pid>, id: RowId)
    requires Reached(c, s) && s.mgr.workers <= gone && LosesHolder(s, gone, id)
    ensures Orphaned(Stopped(s, gone), id, s.world.rows[id])
  {
    ReachedIsSafe(c, s);
    var w, w' := s.world, Stopped(s, gone).world;
    forall q | q in w'.procs && !w'.procs[q].stage.Exited?
      ensures w'.procs[q].task != Some(id) && w'.procs[q].cached != Some(id)
    {
      assert ProcOk(w, q);
    }
  }

  lemma ExecutingEndsRow(w: World, pid: Pid, id: RowId) returns (a: Action)
    requires pid in w.procs && w.procs[pid].stage.Executing? && w.procs[pid].task == Some(id)
    requires id in w.rows && w.rows[id].status.ACTIVE?
    ensures CanAct(w, a) && id in Act(w, a).rows && Act(w, a).rows[id] != w.rows[id]
  {
    a := Respond(pid, Returned(Completed, None, Some("{}")));
  }

  lemma HandlingEndsRow(w: World, pid: Pid, id: RowId) returns (a: Action)
    requires pid in w.procs && w.procs[pid].stage.Handling? && w.procs[pid].task == Some(id)
    requires w.procs[pid].stage.e.TaskError? ==> w.procs[pid].stage.e.payload.Some?
    requires id in w.rows && w.rows[id].status.ACTIVE?
    ensures CanAct(w, a) && id in Act(w, a).rows && Act(w, a).rows[id] != w.rows[id]
  {
    a := HandleError(pid);
  }

  /** A claimed row whose process lives on after the stop is still ended by it. */
  lemma LiveHolderEndsRow(c: Config, s: State, gone: set<Pid>, id: RowId) returns (e: Event)
    requires Reached(c, s) && s.mgr.workers <= gone
    requires id in s.world.rows && s.world.rows[id].status.ACTIVE? && !LosesHolder(s, gone, id)
    ensures var t := Stopped(s, gone);
      Enabled(c, t, e) && id in Next(c, t, e).world.rows && Next(c, t, e).world.rows[id] != t.world.rows[id]
  {
    ReachedIsSafe(c, s);
    assert HolderOk(s.world, id);
    var pid := s.world.rows[id].pid.value;
    assert ProcOk(s.world, pid);
    var a: Action;
    if s.world.procs[pid].stage.Executing? {
      a := ExecutingEndsRow(Stopped(s, gone).world, pid, id);
    } else {
      a := HandlingEndsRow(Stopped(s, gone).world, pid, id);
    }
    e := Env(a);
  }

  /** Exactly which rows a stop orphans: those that are claimed at that moment by a
      process that is gone after it. */
  lemma StopOrphansIff(c: Config, s: State, gone: set<Pid>, id: RowId)
    requires Reached(c, s) && s.mgr.workers <= gone
    ensures StuckForEver(c, Stopped(s, gone), id) <==> LosesHolder(s, gone, id)
  {
    var t := Stopped(s, gone);
    if LosesHolder(s, gone, id) {
      StopOrphans(c, s, gone, id);
      forall es | Legal(c, t, es) ensures Untouched(c, t, es, id) {
        OrphansAreNeverRecovered(c, t, es, id, s.world.rows[id]);
      }
    } else if id in s.world.rows && s.world.rows[id].status.ACTIVE? {
      var e := LiveHolderEndsRow(c, s, gone, id);
      OneEvent(c, t, e);
      assert !Untouched(c, t, [e], id);
    }
  }

  lemma OneEvent(c: Config, s: State, e: Event)
    requires Enabled(c, s, e)
    ensures Legal(c, s, [e]) && After(c, s, [e]) == Next(c, s, e)
  {
    SingleRun(c, s, e);
  }

  /** The only claimed rows that escape are those of children whose spawn call the stop interrupts. */
  lemma OnlyForkedSurvive(c: Config, s: State, gone: set<Pid>, id: RowId)
    requires Reached(c, s) && s.mgr.workers <= gone
    requires id in s.world.rows && s.world.rows[id].status.ACTIVE? && !LosesHolder(s, gone, id)
    ensures ForkedBy(s.mgr.duty).Some? && s.world.rows[id].pid == ForkedBy(s.mgr.duty)
  {
    ReachedIsSafe(c, s);
    assert HolderOk(s.world, id);
    var pid := s.world.rows[id].pid.value;
    assert pid in Waiting(s.mgr.duty) ==> Dismissed(s.world, pid);
  }

  /** Outside a spawn call, and whenever the stop ends every process, the rows
      that it orphans are exactly the claimed ones. */
  lemma StopOrphansClaimed(c: Config, s: State, gone: set<Pid>, id: RowId)
    requires Reached(c, s) && s.mgr.workers <= gone
    requires ForkedBy(s.mgr.duty).None? || s.world.procs.Keys <= gone
    ensures StuckForEver(c, Stopped(s, gone), id) <==> id in s.world.rows && s.world.rows[id].status.ACTIVE?
  {
    StopOrphansIff(c, s, gone, id);
    ReachedIsSafe(c, s);
    if id in s.world.rows && s.world.rows[id].status.ACTIVE? {
      assert HolderOk(s.world, id);
      if !LosesHolder(s, gone, id) {
        OnlyForkedSurvive(c, s, gone, id);
      }
    }
  }

  /** And it happens: any manager with room for one worker can be stopped while
      that worker has a task. */
  lemma StopCanOrphan(c: Config)
    requires RoomForOne(c)
    ensures
      var s := State(OneClaimed(0), Manager({1}, Sleeping));
      Reached(c, s) && StuckForEver(c, Stopped(s, {1}), 1)
  {
    ClaimedAsleep(c);
    StopOrphansClaimed(c, State(OneClaimed(0), Manager({1}, Sleeping)), {1}, 1);
  }
}
