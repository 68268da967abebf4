/** Runs that lead to the states in which the system does what one might not
    expect of it.  Any manager with room for one worker has them. */
module Witnesses {
  import opened Wrappers
  import opened TaskTable
  import opened Packages
  import opened Protocol
  import opened Invariant

  const ONE_TASK: Task := NewTask("mailtest_send", ListArgs(["someone@example.org"]), 0, None)

  /** No row, no process, no package. */
  function Nothing(): World {
    World(map[], {}, map[], map[], 0, Tally(0, 0, 0))
  }

  function OneQueued(): World {
    World(map[1 := ONE_TASK], {1}, map[], map[], 0, Tally(1, 0, 0))
  }

  /** Process 1 works on row 1 since time 0. */
  function OneClaimed(now: Time): World {
    World(map[1 := ONE_TASK.(status := ACTIVE, started := Some(0), pid := Some(1))], {1},
          map[1 := Proc(Executing, Some(1), None)], map[], now, Tally(1, 1, 0))
  }

  predicate RoomForOne(c: Config) {
    1 <= c.minWorkers && 1 <= c.maxWorkers
  }

  function Initial(): State {
    State(Nothing(), Manager({}, NotStarted))
  }

  lemma InitialIsInit()
    ensures Init(Initial())
  {
    forall sha ensures PackageOk(Nothing(), sha) {
      assert UnfinishedOf(map[], sha) == {} && RowsOf(map[], sha) == {};
    }
    assert Queued(map[]) == {};
  }

  lemma InitialIsReached(c: Config)
    ensures Reached(c, Initial())
  {
    InitialIsInit();
    var none: seq<Event> := [];
    assert Leads(c, Initial(), none, Initial());
  }

  lemma Reaches(c: Config, s: State, e: Event, t: State)
    requires Reached(c, s) && Enabled(c, s, e) && Next(c, s, e) == t
    ensures Reached(c, t)
  {
    ReachedNext(c, s, e);
  }

  /** A child that has been created but not recorded yet. */
  lemma OneForked(c: Config)
    requires RoomForOne(c)
    ensures Reached(c, State(OneQueued().(procs := map[1 := Proc(Idle, None, None)]),
                             Manager({}, Starting(c.minWorkers, Some(1)))))
  {
    InitialIsReached(c);
    var queued := State(OneQueued(), Manager({}, NotStarted));
    var starting := State(OneQueued(), Manager({}, Starting(c.minWorkers, None)));
    Reaches(c, Initial(), Env(Enqueue(1, ONE_TASK)), queued);
    Reaches(c, queued, Start, starting);
    Reaches(c, starting, Fork(1), State(OneQueued().(procs := map[1 := Proc(Idle, None, None)]),
                                        Manager({}, Starting(c.minWorkers, Some(1)))));
  }

  /** The child claims a row before the manager knows its pid. */
  lemma ClaimedInFlight(c: Config)
    requires RoomForOne(c)
    ensures Reached(c, State(OneClaimed(0), Manager({}, Starting(c.minWorkers, Some(1)))))
  {
    OneForked(c);
    var forked := State(OneQueued().(procs := map[1 := Proc(Idle, None, None)]), Manager({}, Starting(c.minWorkers, Some(1))));
    assert OldestQueued(forked.world.rows, 1);
    Reaches(c, forked, Env(Claim(1, 1)), State(OneClaimed(0), Manager({}, Starting(c.minWorkers, Some(1)))));
  }

  predicate ClaimUnknown(s: State, id: RowId, pid: Pid) {
    id in s.world.rows && HeldBy(s.world.rows[id], pid) && pid !in s.mgr.workers && pid !in Waiting(s.mgr.duty)
  }

  /** So the manager does not know the pid of every claimed row at all times. */
  lemma ClaimedButUnknown(c: Config)
    requires RoomForOne(c)
    ensures exists s: State :: Reached(c, s) && ClaimUnknown(s, 1, 1)
  {
    ClaimedInFlight(c);
    assert ClaimUnknown(State(OneClaimed(0), Manager({}, Starting(c.minWorkers, Some(1)))), 1, 1);
  }

  lemma {:induction false} StartsUp(c: Config, left: nat)
    requires Reached(c, State(OneClaimed(0), Manager({1}, Starting(left, None))))
    ensures Reached(c, State(OneClaimed(0), Manager({1}, Sleeping)))
  {
    var s := State(OneClaimed(0), Manager({1}, Starting(left, None)));
    if left == 0 {
      Reaches(c, s, Started, State(OneClaimed(0), Manager({1}, Sleeping)));
    } else {
      Reaches(c, s, SpawnFail, State(OneClaimed(0), Manager({1}, Starting(left - 1, None))));
      StartsUp(c, left - 1);
    }
  }

  /** Between two passes, the one worker has a task. */
  lemma ClaimedAsleep(c: Config)
    requires RoomForOne(c)
    ensures Reached(c, State(OneClaimed(0), Manager({1}, Sleeping)))
  {
    ClaimedInFlight(c);
    Reaches(c, State(OneClaimed(0), Manager({}, Starting(c.minWorkers, Some(1)))), Track,
            State(OneClaimed(0), Manager({1}, Starting(c.minWorkers - 1, None))));
    StartsUp(c, c.minWorkers - 1);
  }

  function Later(c: Config): Time {
    if c.maxTaskSeconds < 0 then 0 else c.maxTaskSeconds + 1
  }

  /** The manager is about to find that the worker has exceeded its time limit. */
  function AboutToTimeOut(c: Config): State {
    State(OneClaimed(Later(c)), Manager({1}, Checking([1], [], true)))
  }

  lemma OverdueWhileWorking(c: Config)
    requires RoomForOne(c)
    ensures Reached(c, AboutToTimeOut(c)) && Enabled(c, AboutToTimeOut(c), CheckDuration(Some(1)))
    ensures Overdue(c, AboutToTimeOut(c).world, Some(1))
  {
    ClaimedAsleep(c);
    var later := State(OneClaimed(Later(c)), Manager({1}, Sleeping));
    Reaches(c, State(OneClaimed(0), Manager({1}, Sleeping)), Env(Tick(Later(c))), later);
    var order: seq<Pid> := [1];
    var checking := State(OneClaimed(Later(c)), Manager({1}, Checking(order, [], false)));
    assert order[0] == 1;
    Reaches(c, later, BeginPass(order), checking);
    Reaches(c, checking, CheckAlive, AboutToTimeOut(c));
  }
}
