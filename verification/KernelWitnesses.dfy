/** Runs from `kernel::init` that reach the states in which the kernel does not do what one would
    expect of it. */
module KernelWitnesses {
  import opened Slots
  import opened ReadyRings
  import opened Handles
  import opened SignalWorld
  import opened WaitConditions
  import opened Scheduler
  import opened KernelMachine
  import opened KernelSafety
  import opened KernelRuns
  import opened KernelContexts
  import opened KernelWaits
  import opened KernelWaitRuns
  import opened KernelPriorities

  /** Room for two tasks. */
  const IDLE_FRAME: Word := 100
  const TASK_FRAME: Word := 200

  /** What the process stack pointer happens to hold while `main` runs on the main stack. */
  const STRAY_PSP: Word := 300

  function FreshTask(frame: Word, priority: Priority, state: TaskState): Task {
    Task(frame, frame, [], priority, state, ObjectSet, 0)
  }

  const NO_OBJECTS := World([], [], [])

  function Booted(): Kernel {
    Kernel(false, 0, [true, false],
           [FreshTask(IDLE_FRAME, IDLE_PRIORITY, Ready), FreshTask(TASK_FRAME, IDLE_PRIORITY, Suspended)],
           [EMPTY_RING, EMPTY_RING, EMPTY_RING, TaskRing([IDLE], 0)],
           [None, None], IDLE, NO_OBJECTS, 0, 0, STRAY_PSP, [], 0, 0)
  }

  function Boot(): Machine {
    Machine(Booted(), Unlocked)
  }

  lemma BootIsInitial()
    ensures Initial(Boot()) && Inv(Boot())
  {
    assert Shape(Booted());
    InitialInv(Boot());
  }

  // ---- putting runs together -----------------------------------------------

  function CallSteps(call: Call): seq<Step> {
    [Enter(call), Run, Close]
  }

  /** A whole call, given what its region does. */
  lemma CallRun(m: Machine, call: Call, a: After, r: Kernel)
    requires Inv(m) && m.mode == Unlocked && Shape(Lock(m.k)) && Legal(Lock(m.k), call) && a == Body(Lock(m.k), call)
    requires Shape(a.k) && (a.ending != Leave ==> CanChoose(a.k))
    requires r == match a.ending
                  case Leave => Unlock(a.k)
                  case ExecuteContextSwitch => SwitchContext(a.k)
                  case LoadNext => LoadNextTask(a.k)
    ensures IsRun(m, CallSteps(call)) && RunFrom(m, CallSteps(call)) == Machine(r, Unlocked)
    ensures Inv(Machine(r, Unlocked))
  {
    hide Body, Sound, Legal, SwitchContext, LoadNextTask, CanChoose;
    var s := CallSteps(call);
    var m1 := Next(m, s[0]);
    var m2 := Next(m1, s[1]);
    assert s[1..] == [Run, Close] && s[1..][1..] == [Close] && s[1..][1..][1..] == [];
    assert IsRun(m2, [Close]) && RunFrom(m2, [Close]) == Next(m2, Close);
    assert IsRun(m1, [Run, Close]) && RunFrom(m1, [Run, Close]) == RunFrom(m2, [Close]);
    RunKeepsInv(m, s);
  }

  lemma Then(m: Machine, a: seq<Step>, b: seq<Step>, r: Machine)
    requires IsRun(m, a) && IsRun(RunFrom(m, a), b) && RunFrom(RunFrom(m, a), b) == r
    ensures IsRun(m, a + b) && RunFrom(m, a + b) == r
  {
    RunInTwoParts(m, a, b);
  }

  function Ticks(n: nat): (s: seq<Step>)
    ensures |s| == n
  {
    if n == 0 then [] else [TickStep] + Ticks(n - 1)
  }

  /** The next `n` ticks find nothing to do: no timers, no sleep that is over, no interval that is. */
  ghost predicate NothingToDo(k: Kernel, n: nat) {
    && Shape(k) && k.interlock == 0 && k.world.timers == []
    && k.oldTime as nat <= k.now as nat && k.now as nat + n < 0x1_0000_0000 && k.now as nat + n - k.oldTime as nat <= 11
    && forall i :: 0 <= i < |k.waiting| ==> StaysAsleep(k.waiting[i], k.now, n)
  }

  predicate StaysAsleep(slot: Option<WaitItem>, now: Word, n: nat) {
    match slot
    case None => true
    case Some(item) =>
      && item.conditions.Sleep? && item.conditions.start as nat <= now as nat
      && now as nat + n - item.conditions.start as nat <= item.conditions.interval as nat + 1
  }

  lemma {:induction false} NothingWakes(k: Kernel, n: nat)
    requires Shape(k) && n <= |k.waiting| && forall i :: 0 <= i < |k.waiting| ==> StaysAsleep(k.waiting[i], k.now, 1)
    ensures Scan(k, n) == k
  {
    hide RingOk, TickTimers, SignalVerdict, Waitable, AddReady;
    if n > 0 {
      NothingWakes(k, n - 1);
      assert StaysAsleep(k.waiting[n - 1], k.now, 1);
    }
  }

  lemma NoTimers(w: World, now: Word)
    requires w.timers == []
    ensures TickTimers(w, now) == w
  {
    assert TickTimers(w, now).timers == [];
  }

  lemma AllAsleep(k: Kernel)
    requires Shape(k) && k.world.timers == []
    requires forall i :: 0 <= i < |k.waiting| ==> StaysAsleep(k.waiting[i], k.now, 1)
    ensures Ticking(k) == k
  {
    hide RingOk, Waitable, Scan, StaysAsleep;
    NoTimers(k.world, k.now);
    NothingWakes(k, |k.waiting|);
  }

  lemma QuietTick(k: Kernel)
    requires NothingToDo(k, 1)
    ensures Ticking(k) == k
    ensures CanChoose(MovedOn(k)) ==> Tick(k) == k.(now := k.now + 1)
  {
    hide RingOk, Waitable, CanChoose, MovedOn, ChooseNext, Scan, StaysAsleep;
    AllAsleep(k);
  }

  lemma QuietStep(m: Machine)
    requires Inv(m) && NothingToDo(m.k, 1)
    ensures Enabled(m, TickStep) && m.k.now < 0xFFFF_FFFF
    ensures Next(m, TickStep) == m.(k := m.k.(now := m.k.now + 1)) && Inv(Next(m, TickStep))
  {
    TickKeepsInv(m);
    QuietTick(m.k);
    hide Sound, Ticking, Tick, MovedOn, CanChoose, StaysAsleep, RingOk, Waitable;
  }

  lemma {:induction false} QuietTicks(m: Machine, n: nat)
    requires Inv(m) && NothingToDo(m.k, n)
    ensures IsRun(m, Ticks(n))
    ensures RunFrom(m, Ticks(n)) == m.(k := m.k.(now := m.k.now + n as Word))
    ensures Inv(RunFrom(m, Ticks(n)))
    decreases n
  {
    hide Sound, Ticking, Tick, MovedOn, CanChoose, NothingToDo, StaysAsleep, RingOk, Waitable;
    if n > 0 {
      SoonerToo(m.k, n);
      var next := m.(k := m.k.(now := m.k.now + 1));
      QuietStep(m);
      assert Ticks(n)[1..] == Ticks(n - 1);
      LaterToo(m.k, n);
      QuietTicks(next, n - 1);
    }
  }

  lemma SoonerToo(k: Kernel, n: nat)
    requires NothingToDo(k, n) && n > 0
    ensures NothingToDo(k, 1) && k.now as nat + n < 0x1_0000_0000
  {
    forall i | 0 <= i < |k.waiting| ensures StaysAsleep(k.waiting[i], k.now, 1) {
      assert StaysAsleep(k.waiting[i], k.now, n);
    }
  }

  lemma LaterToo(k: Kernel, n: nat)
    requires NothingToDo(k, n) && n > 0
    ensures NothingToDo(k.(now := k.now + 1), n - 1)
  {
    var later := k.(now := k.now + 1);
    forall i | 0 <= i < |k.waiting| ensures StaysAsleep(later.waiting[i], later.now, n - 1) {
      assert StaysAsleep(k.waiting[i], k.now, n);
    }
  }

  // ---- creating and starting -----------------------------------------------

  function ListOf(priority: Priority, task: nat): seq<TaskRing> {
    Booted().ready[priority := TaskRing(Booted().ready[priority].tasks + [task], 0)]
  }

  /** A second task has been created, ready or suspended. */
  function Created(priority: Priority, suspended: bool): Kernel {
    Booted().(live := [true, true],
              tasks := [FreshTask(IDLE_FRAME, IDLE_PRIORITY, Ready),
                        FreshTask(TASK_FRAME, priority, if suspended then Suspended else Ready)],
              ready := if suspended then Booted().ready else ListOf(priority, 1))
  }

  lemma CreateRun(priority: Priority, suspended: bool)
    ensures var call := CreateTask(true, priority, suspended);
            && IsRun(Boot(), CallSteps(call))
            && RunFrom(Boot(), CallSteps(call)) == Machine(Created(priority, suspended), Unlocked)
            && Inv(Machine(Created(priority, suspended), Unlocked))
  {
    BootIsInitial();
    CreateEffect(priority, suspended);
    hide CreateBody, Inv, Shape, Created, Booted, IsRun, RunFrom;
    CallRun(Boot(), CreateTask(true, priority, suspended), After(Lock(Created(priority, suspended)), Leave),
            Created(priority, suspended));
  }

  lemma CreateEffect(priority: Priority, suspended: bool)
    ensures Shape(Lock(Booted())) && Shape(Lock(Created(priority, suspended)))
    ensures CreateBody(Lock(Booted()), true, priority, suspended) == After(Lock(Created(priority, suspended)), Leave)
    ensures Unlock(Lock(Created(priority, suspended))) == Created(priority, suspended)
  {
    var k := Lock(Booted());
    assert k.live[1..] == [false];
    assert LeastFree(k.live) == 1;
    assert IndexFree(k.ready[priority], 1);
    var a := CreateBody(k, true, priority, suspended);
    assert a.k.tasks == Created(priority, suspended).tasks;
    assert a.k.ready == Created(priority, suspended).ready;
  }

  predicate IndexFree(r: TaskRing, t: nat) {
    t !in r.tasks
  }

  // ---- a tick before the start -------------------------------------------------

  const CREATE_FIRST := CallSteps(CreateTask(true, 0, false))

  lemma BeforeStart()
    ensures IsRun(Boot(), CREATE_FIRST + Ticks(11))
    ensures RunFrom(Boot(), CREATE_FIRST + Ticks(11)) == Machine(Created(0, false).(now := 11), Unlocked)
    ensures Inv(Machine(Created(0, false).(now := 11), Unlocked))
  {
    CreateRun(0, false);
    var m := Machine(Created(0, false), Unlocked);
    ElevenTicksAhead();
    hide Inv, Created, Booted, IsRun, RunFrom, NothingToDo;
    QuietTicks(m, 11);
    Then(Boot(), CREATE_FIRST, Ticks(11), Machine(m.k.(now := 11), Unlocked));
  }

  lemma ElevenTicksAhead()
    ensures NothingToDo(Created(0, false), 11) && Created(0, false).now == 0
  {
  }

  /** One created task and twelve ticks before the start: the last one writes whatever the process
      stack pointer holds, which no task has set yet, over the Idle task's initial one. */
  lemma PreStartTickOverwritesIdle()
    ensures var steps := CREATE_FIRST + Ticks(11);
            && Initial(Boot()) && IsRun(Boot(), steps)
            && var m := RunFrom(Boot(), steps);
            && !m.k.started && Owner(m) == None && Enabled(m, TickStep)
            && m.k.tasks[IDLE].sp == IDLE_FRAME
            && var r := Next(m, TickStep).k;
            && r.tasks != [] && r.tasks[IDLE].sp == STRAY_PSP != IDLE_FRAME && r.current == 1
  {
    BootIsInitial();
    BeforeStart();
    TwelfthTick();
    hide IsRun, RunFrom, Initial, Inv, Created, Booted, Enabled, Next, Shape;
  }

  lemma TwelfthTick()
    requires Inv(Machine(Created(0, false).(now := 11), Unlocked))
    ensures var m := Machine(Created(0, false).(now := 11), Unlocked);
            && !m.k.started && Owner(m) == None && Enabled(m, TickStep)
            && m.k.tasks != [] && m.k.tasks[IDLE].sp == IDLE_FRAME
            && var r := Next(m, TickStep).k;
            && r.tasks != [] && r.tasks[IDLE].sp == STRAY_PSP && r.current == 1
  {
    hide Next, Enabled, Sound, Quiet, Inv, IdleUntilStart, RecordsKept, CanChoose, MovedOn, Ticking;
    TwelfthTickSwitches();
    TickBeforeStart(Machine(Created(0, false).(now := 11), Unlocked));
  }

  lemma TwelfthTickSwitches()
    requires Inv(Machine(Created(0, false).(now := 11), Unlocked))
    ensures var m := Machine(Created(0, false).(now := 11), Unlocked);
            && IdleUntilStart(m) && !Quiet(m.k)
  {
    var k := Created(0, false).(now := 11);
    assert Served(k.ready[IDLE_PRIORITY]) == Some(IDLE);
    assert 1 in k.ready[0].tasks;
    assert InReady(k, 1);
    hide Inv;
  }

  // ---- starting ------------------------------------------------------------------

  /** The kernel has been started and runs task `t`. */
  function Running(k: Kernel, t: nat): Kernel
    requires t < |k.tasks|
  {
    SetState(k, t, TaskState.Running).(started := true, current := t, psp := k.tasks[t].sp, loadFrom := t,
                                       registers := k.tasks[t].context)
  }

  lemma StartRun(k: Kernel, t: nat)
    requires Inv(Machine(k, Unlocked)) && !k.started && t < |k.tasks| && CurrentTask(k) == Some(t)
    ensures IsRun(Machine(k, Unlocked), CallSteps(Start))
    ensures RunFrom(Machine(k, Unlocked), CallSteps(Start)) == Machine(Running(k, t), Unlocked)
    ensures Inv(Machine(Running(k, t), Unlocked))
  {
    var locked := Lock(k);
    assert Shape(locked);
    var a := After(locked.(started := true), LoadNext);
    assert CurrentTask(a.k) == Some(t);
    hide Sound, CurrentTask;
    CallRun(Machine(k, Unlocked), Start, a, Running(k, t));
  }

  // ---- resuming marks the wrong task ----------------------------------------------

  const CREATE_SUSPENDED := CallSteps(CreateTask(true, IDLE_PRIORITY, true))

  function Started(): Kernel {
    Running(Created(IDLE_PRIORITY, true), IDLE)
  }

  function Resumed(): Kernel {
    SetState(Started(), IDLE, Ready).(ready := ListOf(IDLE_PRIORITY, 1))
  }

  lemma ServesIdle()
    ensures var k := Created(IDLE_PRIORITY, true);
            !k.started && |k.tasks| == 2 && Shape(k) && CurrentTask(k) == Some(IDLE) && Started() == Running(k, IDLE)
  {
    var ready := Created(IDLE_PRIORITY, true).ready;
    OnlyIdleReady(ready);
  }

  lemma ResumeRun()
    ensures Inv(Machine(Started(), Unlocked))
    ensures IsRun(Machine(Started(), Unlocked), CallSteps(Resume(1)))
    ensures RunFrom(Machine(Started(), Unlocked), CallSteps(Resume(1))) == Machine(Resumed(), Unlocked)
  {
    CreateRun(IDLE_PRIORITY, true);
    ServesIdle();
    StartRun(Created(IDLE_PRIORITY, true), IDLE);
    ResumeEffect();
    hide ResumeBody, Inv, Shape, Created, Booted, Started, Resumed, IsRun, RunFrom;
    CallRun(Machine(Started(), Unlocked), Resume(1), After(Lock(Resumed()), Leave), Resumed());
  }

  lemma ResumeEffect()
    ensures Shape(Lock(Started())) && Shape(Lock(Resumed())) && Legal(Lock(Started()), Resume(1))
    ensures ResumeBody(Lock(Started()), 1) == After(Lock(Resumed()), Leave)
    ensures Unlock(Lock(Resumed())) == Resumed()
  {
    var k := Lock(Started());
    assert k.ready[IDLE_PRIORITY] == TaskRing([IDLE], 0);
    var a := ResumeBody(k, 1);
    assert a.k.tasks == Resumed().tasks;
    assert a.k.ready == Resumed().ready;
  }

  lemma ResumedMarks()
    ensures var k := Resumed();
            && k.current == IDLE && |k.tasks| == 2 && |k.ready| == PRIORITIES
            && InReady(k, 1) && k.tasks[1].state == Suspended && k.tasks[IDLE].state == Ready
  {
    assert 1 in Resumed().ready[IDLE_PRIORITY].tasks;
  }

  /** Create a suspended task, start, resume it: afterwards the resumed task is ready but marked
      suspended, and the running one is marked ready. */
  lemma ResumeMarksWrongTaskReachably()
    ensures var steps := CREATE_SUSPENDED + CallSteps(Start) + CallSteps(Resume(1));
            && Initial(Boot()) && IsRun(Boot(), steps)
            && var m := RunFrom(Boot(), steps);
            && m.mode == Unlocked && m.k.current == IDLE && |m.k.tasks| == 2 && |m.k.ready| == PRIORITIES
            && InReady(m.k, 1) && m.k.tasks[1].state == Suspended && m.k.tasks[IDLE].state == Ready
  {
    hide IsRun, RunFrom, Started, Resumed, Created, Booted, Initial, Inv;
    BootIsInitial();
    CreateRun(IDLE_PRIORITY, true);
    ServesIdle();
    StartRun(Created(IDLE_PRIORITY, true), IDLE);
    Then(Boot(), CREATE_SUSPENDED, CallSteps(Start), Machine(Started(), Unlocked));
    ResumeRun();
    Then(Boot(), CREATE_SUSPENDED + CallSteps(Start), CallSteps(Resume(1)), Machine(Resumed(), Unlocked));
    ResumedMarks();
  }

  // ---- a task that waits ------------------------------------------------------------

  /** Created with the highest priority, task 1 runs when the kernel starts. */
  function TaskRuns(): Kernel {
    Running(Created(0, false), 1)
  }

  lemma ServesTask()
    ensures var k := Created(0, false);
            !k.started && |k.tasks| == 2 && Shape(k) && CurrentTask(k) == Some(1) && TaskRuns() == Running(k, 1)
  {
    assert Created(0, false).ready[0].tasks == [1];
  }

  const START_TASK := CREATE_FIRST + CallSteps(Start)

  lemma TaskRunsRun()
    ensures Initial(Boot()) && IsRun(Boot(), START_TASK)
    ensures RunFrom(Boot(), START_TASK) == Machine(TaskRuns(), Unlocked) && Inv(Machine(TaskRuns(), Unlocked))
  {
    hide IsRun, RunFrom, TaskRuns, Created, Booted, Initial, Inv;
    BootIsInitial();
    CreateRun(0, false);
    ServesTask();
    StartRun(Created(0, false), 1);
    Then(Boot(), CREATE_FIRST, CallSteps(Start), Machine(TaskRuns(), Unlocked));
  }

  /** Task 1 has parked itself and Idle runs. */
  function Parked(c: Conditions): Kernel {
    SetState(TaskRuns(), 1, Scheduler.Waiting).(waiting := [Some(WaitItem(1, c)), None], ready := Booted().ready)
  }

  function Away(c: Conditions): Kernel {
    SetState(Parked(c), IDLE, TaskState.Running).(current := IDLE, storeAt := 1, loadFrom := IDLE, psp := IDLE_FRAME)
  }

  lemma ParkEffect(c: Conditions)
    requires Waitable(NO_OBJECTS, c)
    ensures Shape(Lock(TaskRuns())) && Park(Lock(TaskRuns()), c) == Some(Lock(Parked(c))) && Shape(Lock(Parked(c)))
  {
    hide RingOk, AddWait, ReadyRings.RemoveTask, Created, Booted, TaskRuns, Parked;
    TaskRunsAlone();
    FirstSlot(WaitItem(1, c));
    OffTheList(c);
  }

  /** What parking does to the state in which task 1 runs, field by field. */
  lemma OffTheList(c: Conditions)
    ensures var k := Lock(TaskRuns());
            && Shape(k) && k.current == 1 && k.world == NO_OBJECTS && k.waiting == [None, None]
            && RemoveReady(k, 1) == k.(ready := Booted().ready)
            && var waiting := [Some(WaitItem(1, c)), None];
            Lock(Parked(c)) == SetState(k.(ready := Booted().ready, waiting := waiting), 1, Scheduler.Waiting)
  {
    TaskRunsAlone();
    var k := Lock(TaskRuns());
    assert RemoveReady(k, 1).ready == Booted().ready;
  }

  lemma FirstSlot(item: WaitItem)
    ensures AddWait([None, None], item) == Some([Some(item), None])
  {
    var free: seq<Option<WaitItem>> := [None, None];
    assert LeastFree(SlotsUsed(free)) == 0;
    assert free[0 := Some(item)] == [Some(item), None];
  }

  lemma OnlyIdleReady(ready: seq<TaskRing>)
    requires |ready| == PRIORITIES && ready[3].tasks != []
    requires ready[0].tasks == [] && ready[1].tasks == [] && ready[2].tasks == []
    ensures FirstReady(ready) == 3
  {
    var p := FirstReady(ready);
    assert p == 0 || p == 1 || p == 2 || p == 3 || p == 4;
  }

  lemma TaskRunsAlone()
    ensures var k := Lock(TaskRuns());
            && Shape(k) && k.waiting == [None, None] && LeastFree(SlotsUsed(k.waiting)) == 0
            && k.ready[0] == TaskRing([1], 0) && RemoveTask(k.ready[0], 1) == EMPTY_RING
  {
    var k := Lock(TaskRuns());
    assert k.ready[0] == TaskRing([1], 0);
  }

  lemma AwayEffect(c: Conditions)
    requires Shape(Lock(Parked(c)))
    ensures var k := Lock(Parked(c)); CanChoose(k) && SwitchContext(k) == Away(c)
  {
    var k := Lock(Parked(c));
    OnlyIdleReady(k.ready);
    assert CurrentTask(k) == Some(IDLE);
    assert SwitchContext(k).tasks == Away(c).tasks;
  }

  lemma ParkRun(call: Call, c: Conditions)
    requires Waitable(NO_OBJECTS, c)
    requires call == Call.Sleep(if c.Sleep? then c.interval else 0) || (call == Call.Wait(c) && c.WaitForObj?)
    requires c.start == 0 && (c.Sleep? <==> call.Sleep?)
    ensures IsRun(Boot(), START_TASK + CallSteps(call))
    ensures RunFrom(Boot(), START_TASK + CallSteps(call)) == Machine(Away(c), Unlocked)
            && Inv(Machine(Away(c), Unlocked))
  {
    TaskRunsRun();
    ParkEffect(c);
    AwayEffect(c);
    ParkCall(call, c);
    hide IsRun, RunFrom, Inv, Body, Park, Shape, TaskRuns, Parked, Away, Created, Booted, CanChoose,
        SwitchContext, Legal;
    CallRun(Machine(TaskRuns(), Unlocked), call, After(Lock(Parked(c)), ExecuteContextSwitch), Away(c));
    Then(Boot(), START_TASK, CallSteps(call), Machine(Away(c), Unlocked));
  }

  lemma ParkCall(call: Call, c: Conditions)
    requires Shape(Lock(TaskRuns())) && Waitable(NO_OBJECTS, c) && Park(Lock(TaskRuns()), c) == Some(Lock(Parked(c)))
    requires call == Call.Sleep(if c.Sleep? then c.interval else 0) || (call == Call.Wait(c) && c.WaitForObj?)
    requires c.start == 0 && (c.Sleep? <==> call.Sleep?)
    ensures Legal(Lock(TaskRuns()), call)
    ensures Body(Lock(TaskRuns()), call) == After(Lock(Parked(c)), ExecuteContextSwitch)
  {
    hide Park, Parked, Waitable, RingOk;
    TaskRunsAt();
    assert c.WaitForObj? ==> c.(start := 0) == c;
    assert c.Sleep? ==> c == WaitConditions.Sleep(c.interval, 0);
    hide TaskRuns, Shape;
  }

  lemma TaskRunsAt()
    ensures var k := Lock(TaskRuns()); k.now == 0 && k.current == 1 && k.world == NO_OBJECTS
  {
  }

  // ---- a sleeper of higher priority ---------------------------------------------------

  const ELEVEN := WaitConditions.Sleep(11, 0)

  const SLEEP := START_TASK + CallSteps(Call.Sleep(11))

  /** The tick at time 11 ends an interval; only Idle is ready. */
  lemma IntervalTick()
    requires Inv(Machine(Away(ELEVEN).(now := 11), Unlocked))
    ensures var m := Machine(Away(ELEVEN).(now := 11), Unlocked);
            && IsRun(m, Ticks(1)) && RunFrom(m, Ticks(1)) == Machine(Away(ELEVEN).(now := 12, oldTime := 11), Unlocked)
            && Inv(RunFrom(m, Ticks(1)))
  {
    hide Away, Tick, Inv, CanChoose, Ticking, Shape, IsRun, RunFrom, MovedOn;
    IntervalTickEffect();
    OneTick(Machine(Away(ELEVEN).(now := 11), Unlocked));
  }

  lemma OneTick(m: Machine)
    requires Inv(m)
    ensures Enabled(m, TickStep) && IsRun(m, Ticks(1)) && RunFrom(m, Ticks(1)) == Next(m, TickStep)
            && Inv(Next(m, TickStep))
  {
    hide ReadyOk, WaitOk, NoneLost, IdleOk, Waitable, RingOk, Tick, CanChoose, Ticking, MovedOn;
    TickKeepsInv(m);
    assert Ticks(1) == [TickStep] && Ticks(1)[1..] == [];
    assert RunFrom(Next(m, TickStep), []) == Next(m, TickStep);
  }

  lemma IntervalTickEffect()
    ensures var k := Away(ELEVEN).(now := 11);
            && Shape(k) && CanChoose(MovedOn(Ticking(k))) && k.interlock == 0
            && Tick(k) == Away(ELEVEN).(now := 12, oldTime := 11)
  {
    var k := Away(ELEVEN).(now := 11);
    StillAsleep();
    AllAsleep(k);
    IdleMovesOn(k);
    IdleMovesOn(k.(oldTime := 11));
    IdleGoesOn(k);
    hide Away, Ticking, MovedOn, CurrentTask, Shape, ChooseNext;
  }

  lemma StillAsleep()
    ensures var k := Away(ELEVEN).(now := 11);
            && Shape(k) && k.interlock == 0 && k.world.timers == [] && k.ready == Booted().ready
            && k.now == 11 && k.oldTime == 0
            && (forall i :: 0 <= i < |k.waiting| ==> StaysAsleep(k.waiting[i], k.now, 1))
            && k.current == IDLE && k.tasks[IDLE].state == TaskState.Running
  {
    AwayIsApart();
    var k := Away(ELEVEN).(now := 11);
    hide RingOk, Waitable, Away;
  }

  lemma AwayIsApart()
    ensures var k := Away(ELEVEN);
            && Shape(k.(now := 11)) && k.interlock == 0 && k.world.timers == [] && k.ready == Booted().ready
                && k.oldTime == 0
            && k.waiting == [Some(WaitItem(1, ELEVEN)), None]
            && k.current == IDLE && k.tasks[IDLE].state == TaskState.Running
  {
    hide StaysAsleep;
  }

  lemma IdleGoesOn(k: Kernel)
    requires Shape(k) && k.current == IDLE && k.tasks[IDLE].state == TaskState.Running
    requires k.ready == Booted().ready && k.now == 11 && k.oldTime == 0
    ensures CanChoose(MovedOn(k)) && SwitchIfElapsed(k) == k.(oldTime := 11)
  {
    hide MovedOn, CurrentTask, Waitable, RingOk;
    IdleMovesOn(k);
    var u := k.(oldTime := 11);
    assert Shape(u);
    IdleMovesOn(u);
    assert ChooseNext(u).tasks == u.tasks;
  }

  lemma IdleMovesOn(k: Kernel)
    requires Shape(k) && k.ready == Booted().ready
    ensures MovedOn(k) == k && CurrentTask(k) == Some(IDLE)
  {
    OnlyIdleReady(k.ready);
    assert MovedOn(k).ready == k.ready;
  }

  const TWELVE_TICKS := SLEEP + Ticks(11) + Ticks(1)

  lemma TwelveTicks()
    ensures Initial(Boot()) && IsRun(Boot(), TWELVE_TICKS)
    ensures RunFrom(Boot(), TWELVE_TICKS) == Machine(Away(ELEVEN).(now := 12, oldTime := 11), Unlocked)
    ensures Inv(Machine(Away(ELEVEN).(now := 12, oldTime := 11), Unlocked))
  {
    hide IsRun, RunFrom, Away, Initial, Inv, NothingToDo, Booted;
    TaskRunsRun();
    ParkRun(Call.Sleep(11), ELEVEN);
    AsleepElevenTicks();
    var m := Machine(Away(ELEVEN), Unlocked);
    QuietTicks(m, 11);
    Then(Boot(), SLEEP, Ticks(11), Machine(m.k.(now := 11), Unlocked));
    IntervalTick();
    Then(Boot(), SLEEP + Ticks(11), Ticks(1), Machine(m.k.(now := 12, oldTime := 11), Unlocked));
  }

  lemma AsleepElevenTicks()
    ensures NothingToDo(Away(ELEVEN), 11) && Away(ELEVEN).now == 0
  {
    assert Shape(Away(ELEVEN));
  }

  lemma SleeperIsDue()
    requires Sound(Away(ELEVEN).(now := 12, oldTime := 11))
    ensures var k := Away(ELEVEN).(now := 12, oldTime := 11);
            && k.live[k.current] && InReady(k, k.current) && k.interlock == 0 && WokenByTick(k, 1)
            && |k.tasks| == 2 && k.tasks[k.current].priority > k.tasks[1].priority
            && Elapsed(k.now, k.oldTime) <= SWITCH_INTERVAL
  {
    var k := Away(ELEVEN).(now := 12, oldTime := 11);
    assert k.ready[IDLE_PRIORITY].tasks == [IDLE];
    assert k.waiting[0] == Some(WaitItem(1, ELEVEN));
    assert TickVerdict(k, 0).Woken?;
  }

  /** Create a task of the highest priority, start, let it sleep for 11 ms. The tick that finds
      the sleep over comes one tick after the end of a round-robin interval, so Idle goes on
      although the task it wakes outranks it. */
  lemma SleeperWaitsForInterval()
    ensures Initial(Boot()) && IsRun(Boot(), TWELVE_TICKS)
    ensures var m := RunFrom(Boot(), TWELVE_TICKS);
            && Enabled(m, TickStep) && Shape(Next(m, TickStep).k) && !TopRuns(Next(m, TickStep).k)
  {
    hide IsRun, RunFrom, Away, Initial, Tick, TopRuns, WokenByTick, Ticking, CanChoose, ReadyOk, WaitOk,
        NoneLost, IdleOk, RingOk, Waitable;
    TwelveTicks();
    SleeperIsDue();
    TickRunsTheTopExactly(Away(ELEVEN).(now := 12, oldTime := 11));
  }

  // ---- a wait on a handle of the wrong type ---------------------------------------------

  const FOR_IDLE := WaitForObj([Create(TASK, IDLE)], false, true, 0, 0)

  /** Create a task, start, let it wait without a time limit for the handle of the Idle task:
      no later run that does not suspend or terminate it makes it ready again. */
  lemma TaskWaitsForGood(later: seq<Step>)
    requires var m := Machine(Away(FOR_IDLE), Unlocked); IsRun(m, later) && NeverWithdrawn(m, later, 1)
    ensures var steps := START_TASK + CallSteps(Call.Wait(FOR_IDLE));
            && Initial(Boot()) && IsRun(Boot(), steps) && RunFrom(Boot(), steps) == Machine(Away(FOR_IDLE), Unlocked)
            && var r := RunFrom(Machine(Away(FOR_IDLE), Unlocked), later).k;
            && Shape(r) && |r.tasks| == 2 && WaitsIn(r.waiting, 1) && !InReady(r, 1)
  {
    hide IsRun, RunFrom, Initial, Inv, Enabled, Next, Away, Shape, Waitable, NeverWithdrawn, StillWaits, WaitsIn;
    var m := Machine(Away(FOR_IDLE), Unlocked);
    WaitForTaskNeverOver(NO_OBJECTS, IDLE, false, 0, 0, 0);
    TaskRunsRun();
    ParkRun(Call.Wait(FOR_IDLE), FOR_IDLE);
    WaitsForIdle();
    UnsupportedWaitNeverEnds(m, later, 0, 0);
    StillInSlot(m.k, RunFrom(m, later).k);
  }

  lemma WaitsForIdle()
    ensures var k := Away(FOR_IDLE);
            && |k.waiting| == 2 && k.waiting[0] == Some(WaitItem(1, FOR_IDLE)) && |k.tasks| == 2
            && LooksAt(FOR_IDLE, 0) && !Supported(FOR_IDLE.signals[0]) && FOR_IDLE.waitForever
  {
    hide Supported, Handles.Create;
    TaskHandleUnsupported(IDLE);
  }

  lemma StillInSlot(k: Kernel, r: Kernel)
    requires |k.waiting| == 2 && k.waiting[0] == Some(WaitItem(1, FOR_IDLE)) && |k.tasks| == 2 && StillWaits(k, r, 0)
    ensures |r.tasks| == 2 && WaitsIn(r.waiting, 1)
  {
    assert r.waiting[0].value.task == 1;
  }

  // ---- a wait that is withdrawn -----------------------------------------------------------

  /** Idle has suspended the waiting task. */
  function Withheld(): Kernel {
    SetState(Away(FOR_IDLE), 1, Suspended).(waiting := [None, None])
  }

  /** And resumed it, which switches to it. */
  function Listed(): Kernel {
    SetState(Withheld(), IDLE, Ready).(ready := ListOf(0, 1))
  }

  function Returned(): Kernel {
    SetState(Listed(), 1, TaskState.Running).(current := 1, storeAt := IDLE, loadFrom := 1, psp := TASK_FRAME)
  }

  lemma WithholdEffect()
    ensures Shape(Lock(Away(FOR_IDLE))) && Shape(Lock(Withheld())) && Legal(Lock(Away(FOR_IDLE)), Suspend(1))
    ensures SuspendBody(Lock(Away(FOR_IDLE)), 1) == After(Lock(Withheld()), Leave)
    ensures Unlock(Lock(Withheld())) == Withheld()
  {
    var k := Lock(Away(FOR_IDLE));
    assert k.waiting == [Some(WaitItem(1, FOR_IDLE)), None];
    assert RemoveWait(k.waiting, 1) == [None, None];
    assert 1 !in k.ready[0].tasks;
    var a := SuspendBody(k, 1);
    assert a.k.ready == Withheld().ready;
    assert a.k.tasks == Withheld().tasks;
  }

  lemma ListEffect()
    ensures Shape(Lock(Withheld())) && Shape(Lock(Listed())) && Legal(Lock(Withheld()), Resume(1))
    ensures ResumeBody(Lock(Withheld()), 1) == After(Lock(Listed()), ExecuteContextSwitch)
  {
    var k := Lock(Withheld());
    assert k.ready[0] == EMPTY_RING;
    var a := ResumeBody(k, 1);
    assert a.k.ready == Listed().ready;
    assert a.k.tasks == Listed().tasks;
  }

  lemma ReturnEffect()
    requires Shape(Lock(Listed()))
    ensures var k := Lock(Listed()); CanChoose(k) && SwitchContext(k) == Returned()
  {
    var k := Lock(Listed());
    assert k.ready[0].tasks == [1];
    assert CurrentTask(k) == Some(1);
    assert SwitchContext(k).tasks == Returned().tasks;
  }

  const WAIT := START_TASK + CallSteps(Call.Wait(FOR_IDLE))

  lemma WaitRun()
    ensures Initial(Boot()) && IsRun(Boot(), WAIT)
    ensures RunFrom(Boot(), WAIT) == Machine(Away(FOR_IDLE), Unlocked) && Inv(Machine(Away(FOR_IDLE), Unlocked))
  {
    hide IsRun, RunFrom, Initial, Inv, Away, Shape, Waitable;
    WaitForTaskNeverOver(NO_OBJECTS, IDLE, false, 0, 0, 0);
    TaskRunsRun();
    ParkRun(Call.Wait(FOR_IDLE), FOR_IDLE);
  }

  lemma WithholdRun()
    requires Inv(Machine(Away(FOR_IDLE), Unlocked))
    ensures IsRun(Machine(Away(FOR_IDLE), Unlocked), CallSteps(Suspend(1)))
    ensures RunFrom(Machine(Away(FOR_IDLE), Unlocked), CallSteps(Suspend(1))) == Machine(Withheld(), Unlocked)
    ensures Inv(Machine(Withheld(), Unlocked))
  {
    WithholdEffect();
    hide SuspendBody, Inv, Shape, Away, Withheld, IsRun, RunFrom;
    CallRun(Machine(Away(FOR_IDLE), Unlocked), Suspend(1), After(Lock(Withheld()), Leave), Withheld());
  }

  lemma ReturnRun()
    requires Inv(Machine(Withheld(), Unlocked))
    ensures IsRun(Machine(Withheld(), Unlocked), CallSteps(Resume(1)))
    ensures RunFrom(Machine(Withheld(), Unlocked), CallSteps(Resume(1))) == Machine(Returned(), Unlocked)
  {
    ListEffect();
    ReturnEffect();
    hide ResumeBody, Inv, Shape, Withheld, Listed, Returned, IsRun, RunFrom, CanChoose, SwitchContext;
    CallRun(Machine(Withheld(), Unlocked), Resume(1), After(Lock(Listed()), ExecuteContextSwitch), Returned());
  }

  lemma ReturnedState()
    ensures var k := Returned();
            && k.current == 1 && |k.tasks| == 2 && k.waiting == [None, None] && k.tasks[1].result == ObjectSet
  {
  }

  const WITHDRAW := WAIT + CallSteps(Suspend(1)) + CallSteps(Resume(1))

  /** A task waits for a handle that is never signaled, is suspended and resumed: it runs on with
      a record that says that its object was set, as an unused record does. */
  lemma WithdrawnWaitReturnsOldAnswerReachably()
    ensures Initial(Boot()) && IsRun(Boot(), WITHDRAW) && !Supported(FOR_IDLE.signals[0])
    ensures var m := RunFrom(Boot(), WITHDRAW);
            && m.mode == Unlocked && m.k.current == 1 && |m.k.tasks| == 2
            && m.k.waiting == [None, None] && m.k.tasks[1].result == ObjectSet
  {
    hide IsRun, RunFrom, Initial, Inv, Away, Withheld, Returned, Supported;
    WaitRun();
    WithholdRun();
    Then(Boot(), WAIT, CallSteps(Suspend(1)), Machine(Withheld(), Unlocked));
    ReturnRun();
    Then(Boot(), WAIT + CallSteps(Suspend(1)), CallSteps(Resume(1)), Machine(Returned(), Unlocked));
    ReturnedState();
    TaskHandleUnsupported(IDLE);
  }
}
