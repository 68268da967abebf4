/** The task queue as a transition system.  The state is the database, the
    operating system's processes and the worker manager; each event is one
    transaction or one system call of one process, and events of different
    processes interleave freely.

    Assumptions: a transaction is atomic and succeeds unless it violates the
    CHECK constraint; row ids and pids are never reused; is_running is
    accurate; the error handler's write succeeds; web requests are serialised;
    stopping the manager ends the run. */
module Protocol {
  import opened Wrappers
  import opened TaskTable
  import opened Packages

  /** Where a worker process is: polling for a task, running its handler, about
      to record an exception, past its only task, or gone. */
  datatype Stage = Idle | Executing | Handling(e: Exn) | Finished | Exited

  /** `task` is the row the process claimed; `cached` is global_task_id of the bulk module. */
  datatype Proc = Proc(stage: Stage, task: Option<RowId>, cached: Option<RowId>)

  predicate Busy(p: Proc) {
    p.stage.Executing? || p.stage.Handling?
  }

  /** How often rows were created, claimed and put back so far. */
  datatype Tally = Tally(enqueued: nat, claimed: nat, requeued: nat)

  datatype World = World(
    rows: Table,
    used: set<RowId>,
    procs: map<Pid, Proc>,
    packages: map<string, Package>,
    clock: Time,
    tally: Tally)

  /** What the manager's one coroutine is doing.  `exited` is the local list
      exited_workers; `forked` is a child process that exists already but whose
      spawn call has not returned yet, so that the manager does not know it. */
  datatype Duty =
    | NotStarted
    | Starting(left: nat, forked: Option<Pid>)
    | Sleeping
    | Checking(todo: seq<Pid>, exited: seq<Pid>, alive: bool)
    | Refilling(exited: seq<Pid>, forked: Option<Pid>)
    | Resetting(exited: seq<Pid>)

  datatype Manager = Manager(workers: set<Pid>, duty: Duty)

  datatype State = State(world: World, mgr: Manager)

  datatype Config = Config(minWorkers: nat, maxWorkers: nat, maxTaskSeconds: Time, timeoutMessage: string)

  // ----- What everyone except the manager does -----

  datatype Action =
    | Tick(now: Time)
    | Enqueue(id: RowId, task: Task)
    | AddPackage(sha: string, package: Package)
    | CheckRequest(sha: string, slots: seq<Slot>)
    | RestartRequest(sha: string, slots: seq<Slot>)
    | Claim(pid: Pid, id: RowId)
    | LookUp(pid: Pid, found: Option<RowId>)
    | Progress(pid: Pid, json: string)
    | Respond(pid: Pid, outcome: Outcome)
    | HandleError(pid: Pid)
    | Exit(pid: Pid)

  predicate InStage(w: World, pid: Pid, executing: bool) {
    && pid in w.procs
    && w.procs[pid].task.Some?
    && if executing then w.procs[pid].stage.Executing? else w.procs[pid].stage.Handling?
  }

  predicate CanAct(w: World, a: Action) {
    match a
    case Tick(now) => w.clock <= now
    case Enqueue(id, task) => id !in w.used && FreshTask(task) && task.package.None?
    case AddPackage(sha, _) => sha !in w.packages
    case CheckRequest(_, slots) => FreshSlots(slots, w.used) && FreshSlots(slots, {})
    case RestartRequest(_, slots) => FreshSlots(slots, w.used) && FreshSlots(slots, {})
    case Claim(pid, id) => pid in w.procs && w.procs[pid].stage.Idle? && OldestQueued(w.rows, id)
    case LookUp(pid, found) => InStage(w, pid, true) && w.procs[pid].cached.None? && Finds(w.rows, pid, found)
    case Progress(pid, _) => InStage(w, pid, true) && w.procs[pid].cached.Some?
    case Respond(pid, r) => InStage(w, pid, true) && Recordable(r)
    case HandleError(pid) =>
      InStage(w, pid, false) && WriteError(w.rows, w.procs[pid].task.value, w.clock, w.procs[pid].stage.e).Some?
    case Exit(pid) => pid in w.procs && !w.procs[pid].stage.Exited?
  }

  function SetStage(w: World, pid: Pid, stage: Stage): World
    requires pid in w.procs
  {
    w.(procs := w.procs[pid := w.procs[pid].(stage := stage)])
  }

  function Answered(w: World, reply: (Reply, Table), slots: seq<Slot>): World {
    if reply.0.Accepted? then
      w.(rows := reply.1, used := w.used + SlotIds(slots),
         tally := w.tally.(enqueued := w.tally.enqueued + BATCH))
    else w.(rows := reply.1)
  }

  function Act(w: World, a: Action): World
    requires CanAct(w, a)
  {
    match a
    case Tick(now) => w.(clock := now)
    case Enqueue(id, task) =>
      w.(rows := w.rows[id := task], used := w.used + {id},
         tally := w.tally.(enqueued := w.tally.enqueued + 1))
    case AddPackage(sha, p) => w.(packages := w.packages[sha := p])
    case CheckRequest(sha, slots) => Answered(w, Check(w.rows, w.packages, sha, slots), slots)
    case RestartRequest(sha, slots) => Answered(w, Restart(w.rows, w.packages, sha, slots), slots)
    case Claim(pid, id) =>
      w.(rows := ClaimRow(w.rows, id, pid, w.clock),
         procs := w.procs[pid := Proc(Executing, Some(id), None)],
         tally := w.tally.(claimed := w.tally.claimed + 1))
    case LookUp(pid, found) => w.(procs := w.procs[pid := w.procs[pid].(cached := found)])
    case Progress(pid, json) => w.(rows := SaveProgress(w.rows, w.procs[pid].cached.value, json))
    case Respond(pid, r) =>
      (match WriteResult(w.rows, w.procs[pid].task.value, w.clock, r)
       case Success(rows') => SetStage(w.(rows := rows'), pid, Finished)
       case Failure(e) => SetStage(w, pid, Handling(e)))
    case HandleError(pid) =>
      var rows' := WriteError(w.rows, w.procs[pid].task.value, w.clock, w.procs[pid].stage.e).value;
      SetStage(w.(rows := rows'), pid, Finished)
    case Exit(pid) => SetStage(w, pid, Exited)
  }

  // ----- What the manager does -----

  datatype Event =
    | Env(action: Action)
    | Start
    | Fork(pid: Pid)
    | Track
    | SpawnFail
    | Started
    | BeginPass(order: seq<Pid>)
    | CheckAlive
    | CheckDuration(found: Option<RowId>)
    | PopExited
    | PoolFull
    | Reset

  /** `order` lists the keys of the workers dictionary. */
  predicate Lists(order: seq<Pid>, workers: set<Pid>) {
    && (forall i, j :: 0 <= i < j < |order| ==> order[i] != order[j])
    && (forall p :: p in order ==> p in workers)
    && (forall p :: p in workers ==> p in order)
  }

  predicate CanSpawn(c: Config, m: Manager) {
    || (m.duty.Starting? && 0 < m.duty.left && m.duty.forked.None?)
    || (m.duty.Refilling? && |m.workers| < c.minWorkers && m.duty.forked.None?)
  }

  function ForkedBy(d: Duty): Option<Pid> {
    if d.Starting? || d.Refilling? then d.forked else None
  }

  function Waiting(d: Duty): seq<Pid> {
    if d.Checking? || d.Refilling? || d.Resetting? then d.exited else []
  }

  predicate Enabled(c: Config, s: State, e: Event) {
    var d := s.mgr.duty;
    match e
    case Env(a) => CanAct(s.world, a)
    case Start => d.NotStarted?
    case Fork(p) => CanSpawn(c, s.mgr) && |s.mgr.workers| < c.maxWorkers && p !in s.world.procs
    case Track => ForkedBy(d).Some? && (d.Starting? ==> 0 < d.left)
    case SpawnFail => CanSpawn(c, s.mgr)
    case Started => d.Starting? && d.left == 0 && d.forked.None?
    case BeginPass(order) => d.Sleeping? && Lists(order, s.mgr.workers)
    case CheckAlive => d.Checking? && d.todo != [] && !d.alive && d.todo[0] in s.world.procs
    case CheckDuration(found) => d.Checking? && d.todo != [] && d.alive && Finds(s.world.rows, d.todo[0], found)
    case PopExited => d.Checking? && d.todo == []
    case PoolFull => d.Refilling? && d.forked.None? && c.minWorkers <= |s.mgr.workers|
    case Reset => d.Resetting?
  }

  /** check_task_duration on the row that was found for a worker. */
  predicate Overdue(c: Config, w: World, found: Option<RowId>) {
    && found.Some? && found.value in w.rows
    && w.rows[found.value].started.Some?
    && w.clock - w.rows[found.value].started.value > c.maxTaskSeconds
  }

  function PidsOf(pids: seq<Pid>): set<Pid> {
    set p | p in pids
  }

  function WithDuty(s: State, d: Duty): State {
    s.(mgr := s.mgr.(duty := d))
  }

  function Next(c: Config, s: State, e: Event): State
    requires Enabled(c, s, e)
  {
    var w := s.world;
    var d := s.mgr.duty;
    match e
    case Env(a) => s.(world := Act(w, a))
    case Start => WithDuty(s, Starting(c.minWorkers, None))
    case Fork(p) =>
      WithDuty(s, d.(forked := Some(p))).(world := w.(procs := w.procs[p := Proc(Idle, None, None)]))
    case Track =>
      State(w, Manager(s.mgr.workers + {ForkedBy(d).value},
                       if d.Starting? then Starting(d.left - 1, None) else Refilling(Waiting(d), None)))
    case SpawnFail => if d.Starting? then WithDuty(s, Starting(d.left - 1, None)) else s
    case Started => WithDuty(s, Sleeping)
    case BeginPass(order) => WithDuty(s, Checking(order, [], false))
    case CheckAlive =>
      if w.procs[d.todo[0]].stage.Exited? then
        WithDuty(s, Checking(d.todo[1..], d.exited + [d.todo[0]], false))
      else WithDuty(s, d.(alive := true))
    case CheckDuration(found) =>
      if Overdue(c, w, found) then
        WithDuty(s, Checking(d.todo[1..], d.exited + [d.todo[0]], false))
        .(world := w.(rows := TimeOutRow(w.rows, found.value, w.clock, c.timeoutMessage)))
      else WithDuty(s, Checking(d.todo[1..], d.exited, false))
    case PopExited => State(w, Manager(s.mgr.workers - PidsOf(d.exited), Refilling(d.exited, None)))
    case PoolFull => WithDuty(s, if d.exited == [] then Sleeping else Resetting(d.exited))
    case Reset =>
      WithDuty(s, Sleeping)
      .(world := w.(rows := ResetRows(w.rows, d.exited),
                    tally := w.tally.(requeued := w.tally.requeued + |HeldRows(w.rows, d.exited)|)))
  }

  // ----- Runs -----

  ghost predicate Legal(c: Config, s: State, es: seq<Event>)
    decreases es
  {
    es == [] || (Enabled(c, s, es[0]) && Legal(c, Next(c, s, es[0]), es[1..]))
  }

  ghost function After(c: Config, s: State, es: seq<Event>): State
    requires Legal(c, s, es)
    decreases es
  {
    if es == [] then s else After(c, Next(c, s, es[0]), es[1..])
  }

  /** Runs compose. */
  lemma {:induction false} Concat(c: Config, s: State, es: seq<Event>, fs: seq<Event>)
    requires Legal(c, s, es)
    ensures Legal(c, s, es + fs) <==> Legal(c, After(c, s, es), fs)
    ensures Legal(c, s, es + fs) ==> After(c, s, es + fs) == After(c, After(c, s, es), fs)
    decreases es
  {
    if es == [] {
      assert es + fs == fs;
    } else {
      assert (es + fs)[0] == es[0] && (es + fs)[1..] == es[1..] + fs;
      Concat(c, Next(c, s, es[0]), es[1..], fs);
    }
  }

  /** The events `es` lead from s to t. */
  ghost predicate Leads(c: Config, s: State, es: seq<Event>, t: State) {
    Legal(c, s, es) && After(c, s, es) == t
  }

  lemma LeadsOn(c: Config, s: State, es: seq<Event>, t: State, fs: seq<Event>, u: State)
    requires Leads(c, s, es, t) && Leads(c, t, fs, u)
    ensures Leads(c, s, es + fs, u)
  {
    Concat(c, s, es, fs);
  }

  lemma LeadsTo(c: Config, s: State, es: seq<Event>, t: State, e: Event)
    requires Leads(c, s, es, t) && Enabled(c, t, e)
    ensures Leads(c, s, es + [e], Next(c, t, e))
  {
    Concat(c, s, es, [e]);
    assert [e][1..] == [];
  }

  // ----- Runs between two states -----

  /** The process whose own code an action belongs to. */
  function Actor(a: Action): Option<Pid> {
    if a.Claim? || a.LookUp? || a.Progress? || a.Respond? || a.HandleError? || a.Exit? then Some(a.pid) else None
  }

  /** What the process itself does in a run. */
  ghost function Own(es: seq<Event>, pid: Pid): seq<Action> {
    if es == [] then []
    else (if es[0].Env? && Actor(es[0].action) == Some(pid) then [es[0].action] else []) + Own(es[1..], pid)
  }

  lemma {:induction false} OwnConcat(es: seq<Event>, fs: seq<Event>, pid: Pid)
    ensures Own(es + fs, pid) == Own(es, pid) + Own(fs, pid)
  {
    if es == [] {
      assert es + fs == fs;
    } else {
      assert (es + fs)[0] == es[0] && (es + fs)[1..] == es[1..] + fs;
      OwnConcat(es[1..], fs, pid);
    }
  }

  /** Some run leads from s to t in which the process does exactly `own`. */
  ghost predicate FollowsOwn(c: Config, s: State, t: State, pid: Pid, own: seq<Action>) {
    exists es :: Leads(c, s, es, t) && Own(es, pid) == own
  }

  /** Some run leads from s to t in which the manager begins no pass. */
  ghost predicate Proceeds(c: Config, s: State, t: State) {
    exists es :: Leads(c, s, es, t) && NoNewPass(es)
  }

  ghost predicate NoNewPass(es: seq<Event>) {
    forall i :: 0 <= i < |es| ==> !es[i].BeginPass?
  }

  /** A run that is one complete pass of the manager. */
  ghost predicate Pass(c: Config, s: State, t: State) {
    exists order :: Enabled(c, s, BeginPass(order)) && Proceeds(c, Next(c, s, BeginPass(order)), t)
  }

  lemma Stays(c: Config, s: State, pid: Pid)
    ensures FollowsOwn(c, s, s, pid, []) && Proceeds(c, s, s)
  {
    var none: seq<Event> := [];
    assert Leads(c, s, none, s) && Own(none, pid) == [] && NoNewPass(none);
  }

  lemma OneStep(c: Config, s: State, e: Event)
    requires Enabled(c, s, e) && !e.BeginPass?
    ensures Proceeds(c, s, Next(c, s, e))
  {
    SingleRun(c, s, e);
    assert Leads(c, s, [e], Next(c, s, e)) && NoNewPass([e]);
  }

  lemma OneOwnStep(c: Config, s: State, e: Event, pid: Pid)
    requires Enabled(c, s, e)
    ensures FollowsOwn(c, s, Next(c, s, e), pid, if e.Env? && Actor(e.action) == Some(pid) then [e.action] else [])
  {
    SingleRun(c, s, e);
    OwnOne(e, pid);
    assert Leads(c, s, [e], Next(c, s, e));
  }

  lemma SingleRun(c: Config, s: State, e: Event)
    requires Enabled(c, s, e)
    ensures Leads(c, s, [e], Next(c, s, e))
  {
    assert Leads(c, s, [], s);
    LeadsTo(c, s, [], s, e);
    assert [] + [e] == [e];
  }

  lemma OwnOne(e: Event, pid: Pid)
    ensures Own([e], pid) == if e.Env? && Actor(e.action) == Some(pid) then [e.action] else []
  {
    assert [e][1..] == [];
  }

  lemma ProceedsOn(c: Config, s: State, t: State, u: State)
    requires Proceeds(c, s, t) && Proceeds(c, t, u)
    ensures Proceeds(c, s, u)
  {
    var es :| Leads(c, s, es, t) && NoNewPass(es);
    var fs :| Leads(c, t, fs, u) && NoNewPass(fs);
    LeadsOn(c, s, es, t, fs, u);
    assert NoNewPass(es + fs);
  }

  lemma FollowsOn(c: Config, s: State, t: State, u: State, pid: Pid, own: seq<Action>, more: seq<Action>)
    requires FollowsOwn(c, s, t, pid, own) && FollowsOwn(c, t, u, pid, more)
    ensures FollowsOwn(c, s, u, pid, own + more)
  {
    var es :| Leads(c, s, es, t) && Own(es, pid) == own;
    var fs :| Leads(c, t, fs, u) && Own(fs, pid) == more;
    LeadsOn(c, s, es, t, fs, u);
    OwnConcat(es, fs, pid);
  }
}
