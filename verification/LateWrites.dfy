/** Can a finished row still change?  Only in one way: by the late write of a
    worker whose task was failed for exceeding its time limit and which has not
    yet died of the signal. */
module LateWrites {
  import opened Wrappers
  import opened TaskTable
  import opened Packages
  import opened Protocol
  import opened Invariant
  import opened Witnesses

  predicate FailedByTimeout(c: Config, t: Task) {
    t.status.FAILED? && t.error == Some(c.timeoutMessage)
  }

  /** If the row of a worker that is still busy has ended, it has been timed out. */
  ghost predicate LateOk(c: Config, w: World, pid: Pid)
    requires pid in w.procs
  {
    var p := w.procs[pid];
    Busy(p) && p.task.Some? && p.task.value in w.rows && Terminal(w.rows[p.task.value]) ==>
      FailedByTimeout(c, w.rows[p.task.value])
  }

  ghost predicate OnlyLate(c: Config, w: World) {
    forall pid :: pid in w.procs ==> LateOk(c, w, pid)
  }

  lemma OwnLate(c: Config, w: World, a: Action)
    requires WorldOk(w) && CanAct(w, a) && ByWorker(a) && LateOk(c, w, a.pid)
    ensures LateOk(c, Act(w, a), a.pid)
  {
    assert ProcOk(w, a.pid);
  }

  lemma OtherLate(c: Config, w: World, a: Action, pid: Pid)
    requires WorldOk(w) && CanAct(w, a) && pid in w.procs && LateOk(c, w, pid)
    requires ByWorker(a) ==> pid != a.pid
    ensures LateOk(c, Act(w, a), pid)
  {
    assert ProcOk(w, pid);
    if IsRequest(a) {
      RequestEffect(w, a);
    } else if ByWorker(a) {
      OwnRowOnly(w, a);
      assert Busy(w.procs[pid]) && a.Claim? && w.procs[pid].task == Some(a.id) ==> false;
      assert Busy(w.procs[pid]) && Busy(w.procs[a.pid]) ==> w.procs[pid].task != w.procs[a.pid].task;
    }
  }

  lemma LateActed(c: Config, w: World, a: Action)
    requires WorldOk(w) && CanAct(w, a) && OnlyLate(c, w)
    ensures OnlyLate(c, Act(w, a))
  {
    forall pid | pid in Act(w, a).procs ensures LateOk(c, Act(w, a), pid) {
      assert pid in w.procs && LateOk(c, w, pid);
      if ByWorker(a) && pid == a.pid {
        OwnLate(c, w, a);
      } else {
        OtherLate(c, w, a, pid);
      }
    }
  }

  lemma LateManaged(c: Config, s: State, e: Event)
    requires Enabled(c, s, e) && !e.Env? && OnlyLate(c, s.world)
    ensures OnlyLate(c, Next(c, s, e).world)
  {
    forall pid | pid in Next(c, s, e).world.procs ensures LateOk(c, Next(c, s, e).world, pid) {
      assert pid in s.world.procs ==> LateOk(c, s.world, pid);
    }
  }

  lemma LateStep(c: Config, s: State, e: Event)
    requires Inv(c, s) && Enabled(c, s, e) && OnlyLate(c, s.world)
    ensures OnlyLate(c, Next(c, s, e).world)
  {
    if e.Env? {
      LateActed(c, s.world, e.action);
    } else {
      LateManaged(c, s, e);
    }
  }

  lemma {:induction false} LateRun(c: Config, s: State, es: seq<Event>)
    requires Inv(c, s) && Legal(c, s, es) && OnlyLate(c, s.world)
    ensures OnlyLate(c, After(c, s, es).world)
    decreases es
  {
    if es != [] {
      LateStep(c, s, es[0]);
      Preserved(c, s, es[0]);
      LateRun(c, Next(c, s, es[0]), es[1..]);
    }
  }

  /** The step is the write of a busy worker to the row it claimed. */
  predicate OwnWrite(w: World, e: Event, id: RowId) {
    && e.Env? && (e.action.Progress? || e.action.Respond? || e.action.HandleError?)
    && e.action.pid in w.procs && Busy(w.procs[e.action.pid]) && w.procs[e.action.pid].task == Some(id)
  }

  lemma WritesOwn(c: Config, s: State, e: Event, id: RowId)
    requires Inv(c, s) && Enabled(c, s, e) && id in s.world.rows && Terminal(s.world.rows[id])
    requires id in Next(c, s, e).world.rows && Next(c, s, e).world.rows[id] != s.world.rows[id]
    ensures OwnWrite(s.world, e, id)
  {
    if e.Env? {
      if IsRequest(e.action) {
        RequestEffect(s.world, e.action);
      } else if ByWorker(e.action) {
        OwnRowOnly(s.world, e.action);
        assert ProcOk(s.world, e.action.pid);
      }
    }
  }

  /** A finished row changes only by its own worker's late write, and only if it
      had been failed for exceeding the time limit. */
  lemma OnlyTimedOutRowsChange(c: Config, s: State, es: seq<Event>, e: Event, id: RowId)
    requires Init(s) && Legal(c, s, es) && Enabled(c, After(c, s, es), e)
    requires id in After(c, s, es).world.rows && Terminal(After(c, s, es).world.rows[id])
    requires id in Next(c, After(c, s, es), e).world.rows
    requires Next(c, After(c, s, es), e).world.rows[id] != After(c, s, es).world.rows[id]
    ensures FailedByTimeout(c, After(c, s, es).world.rows[id]) && OwnWrite(After(c, s, es).world, e, id)
  {
    Reachable(c, s, es);
    LateRun(c, s, es);
    var t := After(c, s, es);
    WritesOwn(c, t, e, id);
    assert LateOk(c, t.world, e.action.pid);
  }

  /** The worker's handler has not returned yet. */
  predicate WorksOn(w: World, pid: Pid, id: RowId) {
    pid in w.procs && w.procs[pid].stage.Executing? && w.procs[pid].task == Some(id)
  }

  ghost predicate ChangesStatus(c: Config, s: State, e: Event, id: RowId)
    requires id in s.world.rows
  {
    Enabled(c, s, e) && id in Next(c, s, e).world.rows && Next(c, s, e).world.rows[id].status != s.world.rows[id].status
  }

  /** What a handler that succeeds after all makes of a row that was failed meanwhile. */
  function LateSuccess(pid: Pid, results: string): Event {
    Env(Respond(pid, Returned(Completed, None, Some(results))))
  }

  /** In any run: if the row of a worker that still runs its handler has ended,
      the final write, which has no status guard, makes it COMPLETED; the error
      text of the timeout stays in it. */
  lemma TimedOutMayComplete(c: Config, s: State, es: seq<Event>, pid: Pid, id: RowId, results: string)
    requires Init(s) && Legal(c, s, es)
    requires id in After(c, s, es).world.rows && Terminal(After(c, s, es).world.rows[id])
    requires WorksOn(After(c, s, es).world, pid, id)
    ensures
      var t := After(c, s, es);
      && FailedByTimeout(c, t.world.rows[id])
      && ChangesStatus(c, t, LateSuccess(pid, results), id)
      && var row' := Next(c, t, LateSuccess(pid, results)).world.rows[id];
      && row'.status.COMPLETED? && row'.result == Some(results) && row'.error == Some(c.timeoutMessage)
  {
    Reachable(c, s, es);
    LateRun(c, s, es);
    assert LateOk(c, After(c, s, es).world, pid);
  }

  lemma StatusChangeNeedsWorker(c: Config, s: State, es: seq<Event>, e: Event, id: RowId)
    requires Init(s) && Legal(c, s, es)
    requires id in After(c, s, es).world.rows && Terminal(After(c, s, es).world.rows[id])
    requires ChangesStatus(c, After(c, s, es), e, id)
    ensures e.Env? && e.action.Respond? && WorksOn(After(c, s, es).world, e.action.pid, id)
    ensures After(c, s, es).world.rows[id].status.FAILED? && Next(c, After(c, s, es), e).world.rows[id].status.COMPLETED?
  {
    OnlyTimedOutRowsChange(c, s, es, e, id);
    Reachable(c, s, es);
    assert ProcOk(After(c, s, es).world, e.action.pid);
  }

  /** The status of a finished row can change exactly while some worker still
      runs the handler for it, and then only from FAILED to COMPLETED. */
  lemma StatusCanChangeIff(c: Config, s: State, es: seq<Event>, id: RowId)
    requires Init(s) && Legal(c, s, es)
    requires id in After(c, s, es).world.rows && Terminal(After(c, s, es).world.rows[id])
    ensures (exists e :: ChangesStatus(c, After(c, s, es), e, id)) <==> exists pid :: WorksOn(After(c, s, es).world, pid, id)
    ensures forall e :: ChangesStatus(c, After(c, s, es), e, id) ==>
      After(c, s, es).world.rows[id].status.FAILED? && Next(c, After(c, s, es), e).world.rows[id].status.COMPLETED?
  {
    var t := After(c, s, es);
    forall e | ChangesStatus(c, t, e, id)
      ensures e.Env? && e.action.Respond? && WorksOn(t.world, e.action.pid, id)
      ensures t.world.rows[id].status.FAILED? && Next(c, t, e).world.rows[id].status.COMPLETED?
    {
      StatusChangeNeedsWorker(c, s, es, e, id);
    }
    if pid :| WorksOn(t.world, pid, id) {
      TimedOutMayComplete(c, s, es, pid, id, "");
      assert ChangesStatus(c, t, LateSuccess(pid, ""), id);
    }
  }

  function FailedRow(c: Config): Task {
    ONE_TASK.(status := FAILED, started := Some(0), pid := Some(1), completed := Some(Later(c)), error := Some(c.timeoutMessage))
  }

  /** The manager has failed the row, and its worker is still at work. */
  function JustTimedOut(c: Config): State {
    State(OneClaimed(Later(c)).(rows := map[1 := FailedRow(c)]), Manager({1}, Checking([], [1], false)))
  }

  function JustCompleted(c: Config, results: string): State {
    State(OneClaimed(Later(c)).(rows := map[1 := FailedRow(c).(status := COMPLETED, result := Some(results))],
                                procs := map[1 := Proc(Finished, Some(1), None)]),
          Manager({1}, Checking([], [1], false)))
  }

  lemma TimesOut(c: Config)
    requires RoomForOne(c)
    ensures Reached(c, JustTimedOut(c))
  {
    OverdueWhileWorking(c);
    var todo: seq<Pid> := [1];
    assert todo[1..] == [] && [] + [todo[0]] == todo;
    assert TimeOutRow(OneClaimed(Later(c)).rows, 1, Later(c), c.timeoutMessage) == map[1 := FailedRow(c)];
    Reaches(c, AboutToTimeOut(c), CheckDuration(Some(1)), JustTimedOut(c));
  }

  /** And it happens: a run of any manager with room for one worker leads to a
      row that has been failed by timeout, with its worker still at work, and
      one more step of that worker to the same row COMPLETED. */
  lemma FailedThenCompleted(c: Config, results: string)
    requires RoomForOne(c)
    ensures Reached(c, JustTimedOut(c)) && FailedByTimeout(c, JustTimedOut(c).world.rows[1])
    ensures Enabled(c, JustTimedOut(c), LateSuccess(1, results))
    ensures Next(c, JustTimedOut(c), LateSuccess(1, results)) == JustCompleted(c, results)
    ensures Reached(c, JustCompleted(c, results)) && JustCompleted(c, results).world.rows[1].status.COMPLETED?
  {
    TimesOut(c);
    Reaches(c, JustTimedOut(c), LateSuccess(1, results), JustCompleted(c, results));
  }
}
