/** The kernel's global context as one object, built of its lists, pools and lock and updated in
    place by its handlers and calls (source/kernel.cpp, source/scheduler). Each method is proved
    to do to the abstract state what the step machine says, and to touch live records only. */
module KernelObjects {
  import opened Slots
  import opened ReadyRings
  import opened Handles
  import opened SignalWorld
  import opened WaitConditions
  import opened ReadyLists
  import opened WaitLists
  import opened TaskPools
  import opened SignalObjects
  import opened KernelLocks
  import opened Scheduler
  import opened KernelMachine
  import opened KernelSafety
  import opened KernelRuns
  import opened KernelContexts
  import opened KernelWaits
  import opened KernelPriorities
  import opened KernelCalls

  class KernelContext {
    const ready: ReadyList
    const waits: WaitList
    const tasks: TaskPool
    const signals: Signals
    const lock: KernelLock
    var started: bool
    var current: nat
    var now: Word
    var oldTime: Word
    var psp: Word
    var registers: Registers
    var storeAt: nat
    var loadFrom: nat

    /** The objects this one is made of. */
    ghost function Repr(): set<object> {
      {this, lock} + ready.Repr + waits.Repr + tasks.Repr + signals.Repr
    }

    ghost predicate Valid()
      reads Repr()
    {
      && ready.Valid() && waits.Valid() && tasks.Valid() && signals.Valid()
      && ready.maxSize == waits.items.maxSize == tasks.data.maxSize > 0
      && {this, lock} !! ready.Repr + waits.Repr + tasks.Repr + signals.Repr
      && ready.Repr !! waits.Repr + tasks.Repr + signals.Repr
      && waits.Repr !! tasks.Repr + signals.Repr
      && tasks.Repr !! signals.Repr
    }

    ghost function State(): Kernel
      reads Repr()
      requires Valid()
    {
      Kernel(started, lock.interlock, tasks.Live(), tasks.Records(), ready.View(), waits.View(), current,
             signals.World(), now, oldTime, psp, registers, storeAt, loadFrom)
    }

    /** The context before `kernel::init`: no task, nothing listed, lock free. */
    constructor (maxTasks: nat, signals: Signals)
      requires maxTasks > 0 && signals.Valid()
      ensures Valid() && this.signals == signals && |State().tasks| == maxTasks
      ensures Blank(State())
    {
      hide ReadyList.Valid, ReadyList.View, WaitList.Valid, WaitList.View, TaskPool.Valid, TaskPool.Live,
           TaskPool.Records, Signals.Valid, Signals.World;
      this.signals := signals;
      ready := new ReadyList(maxTasks);
      waits := new WaitList(maxTasks);
      tasks := new TaskPool(maxTasks);
      lock := new KernelLock();
      started, current, now, oldTime, psp, registers, storeAt, loadFrom := false, IDLE, 0, 0, 0, [], IDLE, IDLE;
    }

    static ghost predicate Blank(k: Kernel) {
      && !k.started && k.interlock == 0 && k.current == IDLE && k.now == k.oldTime == 0
      && 0 < |k.tasks| == |k.live| == |k.waiting|
      && (forall t :: 0 <= t < |k.live| ==> !k.live[t])
      && (forall i :: 0 <= i < |k.waiting| ==> k.waiting[i] == None)
      && k.ready == [EMPTY_RING, EMPTY_RING, EMPTY_RING, EMPTY_RING]
    }

    // ---- lists and records -------------------------------------------------

    method GetTask(t: nat) returns (task: Task)
      requires Valid() && t < |State().live| && State().live[t]
      ensures Valid() && State() == old(State())
      ensures t < |State().tasks| && task == State().tasks[t]
    {
      hide TaskPool.Valid, TaskPool.Live, TaskPool.Records;
      task := tasks.Read(t);
    }

    method SetTask(t: nat, task: Task)
      requires Valid() && t < |State().live| && State().live[t]
      modifies tasks.Repr
      ensures Valid() && t < |old(State()).tasks| && State() == With(old(State()), t, task)
    {
      hide ReadyList.Valid, ReadyList.View, WaitList.Valid, WaitList.View, TaskPool.Valid, TaskPool.Live,
           TaskPool.Records, Signals.Valid, Signals.World;
      tasks.Write(t, task);
    }

    method SetTaskState(t: nat, state: TaskState)
      requires Valid() && t < |State().live| && State().live[t]
      modifies tasks.Repr
      ensures Valid() && t < |old(State()).tasks| && State() == SetState(old(State()), t, state)
    {
      hide Valid, State;
      var task := GetTask(t);
      SetTask(t, task.(state := state));
    }

    method AddReadyTask(t: nat) returns (added: bool)
      requires Valid() && Shape(State()) && t < |State().live| && State().live[t]
      modifies ready.Repr
      ensures Valid()
      ensures var r := AddReady(old(State()), t);
              added == r.Some? && State() == if added then r.value else old(State())
    {
      hide ReadyList.Valid, ReadyList.View, WaitList.Valid, WaitList.View, TaskPool.Valid, TaskPool.Live,
           TaskPool.Records, Signals.Valid, Signals.World, Waitable, RingOk, ReadyRings.AddTask, ReadyRings.RemoveTask;
      var task := tasks.Read(t);
      added := ready.AddTask(task.priority, t);
    }

    method RemoveReadyTask(t: nat)
      requires Valid() && Shape(State()) && t < |State().live| && State().live[t]
      modifies ready.Repr
      ensures Valid() && State() == RemoveReady(old(State()), t)
    {
      hide ReadyList.Valid, ReadyList.View, WaitList.Valid, WaitList.View, TaskPool.Valid, TaskPool.Live,
           TaskPool.Records, Signals.Valid, Signals.World, Waitable, RingOk, ReadyRings.RemoveTask;
      var task := tasks.Read(t);
      ready.RemoveTask(task.priority, t);
    }

    method RemoveWaitItem(t: nat)
      requires Valid()
      modifies waits.Repr
      ensures Valid() && State() == old(State()).(waiting := RemoveWait(old(State()).waiting, t))
    {
      hide ReadyList.Valid, ReadyList.View, WaitList.Valid, WaitList.View, TaskPool.Valid, TaskPool.Live,
           TaskPool.Records, Signals.Valid, Signals.World, RemoveWait;
      waits.RemoveTask(t);
    }

    /** Takes a task off both lists. */
    method RemoveTask(t: nat)
      requires Valid() && Shape(State()) && t < |State().live| && State().live[t]
      modifies ready.Repr, waits.Repr
      ensures Valid()
      ensures var k := old(State()); State() == RemoveReady(k, t).(waiting := RemoveWait(k.waiting, t))
    {
      hide Valid, State, RemoveReady, RemoveWait, Waitable, RingOk;
      RemoveReadyTask(t);
      RemoveWaitItem(t);
    }

    method SetCurrent(next: nat)
      requires Valid()
      modifies this
      ensures Valid() && State() == old(State()).(current := next)
    {
      hide ReadyList.Valid, ReadyList.View, WaitList.Valid, WaitList.View, TaskPool.Valid, TaskPool.Live,
           TaskPool.Records, Signals.Valid, Signals.World;
      current := next;
    }

    method GetCurrentTaskId() returns (t: nat)
      requires Valid()
      ensures Valid() && State() == old(State())
      ensures t == State().current
    {
      hide ReadyList.Valid, ReadyList.View, WaitList.Valid, WaitList.View, TaskPool.Valid, TaskPool.Live,
           TaskPool.Records, Signals.Valid, Signals.World;
      t := current;
    }

    method IsStarted() returns (yes: bool)
      requires Valid()
      ensures Valid() && State() == old(State())
      ensures yes == State().started
    {
      hide ReadyList.Valid, ReadyList.View, WaitList.Valid, WaitList.View, TaskPool.Valid, TaskPool.Live,
           TaskPool.Records, Signals.Valid, Signals.World;
      yes := started;
    }

    // ---- the choice of a task ------------------------------------------------

    method FindServed() returns (next: nat)
      requires Valid() && Sound(State())
      ensures Valid() && State() == old(State())
      ensures CurrentTask(State()) == Some(next)
      ensures next < |State().live| && State().live[next]
    {
      hide ReadyList.Valid, ReadyList.View, WaitList.Valid, WaitList.View, TaskPool.Valid, TaskPool.Live,
           TaskPool.Records, Signals.Valid, Signals.World, Waitable, RingOk, WaitOk, NoneLost;
      AlwaysATask(State());
      var found := ready.FindServed();
      return found.value;
    }

    method MoveOn() returns (next: nat)
      requires Valid() && Sound(State())
      modifies ready.Repr
      ensures Valid() && State() == MovedOn(old(State())) && CurrentTask(State()) == Some(next)
      ensures next < |State().live| && State().live[next]
    {
      hide ReadyList.Valid, ReadyList.View, WaitList.Valid, WaitList.View, TaskPool.Valid, TaskPool.Live,
           TaskPool.Records, Signals.Valid, Signals.World, Waitable, RingOk, WaitOk, NoneLost;
      AlwaysATask(State());
      var found := ready.MoveOn();
      return found.value;
    }

    /** The served task of the highest priority becomes the current one. */
    method GetCurrentTask() returns (next: nat)
      requires Valid() && Sound(State())
      modifies this, tasks.Repr
      ensures Valid() && CanChoose(old(State())) && State() == Choose(old(State()))
      ensures next == State().current < |State().live| && State().live[next]
    {
      hide Valid, State, ReadyOk, WaitOk, NoneLost, IdleOk, CurrentTask, Waitable, RingOk;
      AlwaysATask(State());
      next := FindServed();
      SetTaskState(next, Running);
      SetCurrent(next);
    }

    /** Round robin within the highest priority. */
    method GetNextTask() returns (next: nat)
      requires Valid() && Sound(State()) && State().live[State().current]
      modifies this, tasks.Repr, ready.Repr
      ensures Valid() && CanChoose(MovedOn(old(State()))) && State() == ChooseNext(old(State()))
      ensures next == State().current < |State().live| && State().live[next]
    {
      hide Valid, ReadyList.Valid, ReadyList.View, WaitList.Valid, WaitList.View, TaskPool.Valid,
          TaskPool.Live, TaskPool.Records,
           Signals.Valid, Signals.World,
           ReadyOk, WaitOk, NoneLost, IdleOk, CurrentTask, Waitable, RingOk;
      AlwaysATask(State());
      next := MoveOn();
      SetTaskState(current, Ready);
      SetTaskState(next, Running);
      SetCurrent(next);
    }

    // ---- the wait list -------------------------------------------------------

    method AddWaitItem(item: WaitItem) returns (added: bool)
      requires Valid()
      modifies waits.Repr
      ensures Valid()
      ensures var r := AddWait(old(State()).waiting, item);
              added == r.Some? && State() == if added then old(State()).(waiting := r.value) else old(State())
    {
      hide ReadyList.Valid, ReadyList.View, WaitList.Valid, WaitList.View, TaskPool.Valid, TaskPool.Live,
           TaskPool.Records, Signals.Valid, Signals.World, AddWait;
      added := waits.AddTask(item);
    }

    method GetWaitItem(i: nat) returns (item: Option<WaitItem>)
      requires Valid() && i < |State().waiting|
      ensures Valid() && State() == old(State())
      ensures item == State().waiting[i]
    {
      hide ReadyList.Valid, ReadyList.View, WaitList.Valid, WaitList.View, TaskPool.Valid, TaskPool.Live,
           TaskPool.Records, Signals.Valid, Signals.World;
      item := waits.Item(i);
    }

    method FreeWaitItem(i: nat)
      requires Valid() && i < |State().waiting|
      modifies waits.Repr
      ensures Valid() && State() == old(State()).(waiting := old(State()).waiting[i := None])
    {
      hide ReadyList.Valid, ReadyList.View, WaitList.Valid, WaitList.View, TaskPool.Valid, TaskPool.Live,
           TaskPool.Records, Signals.Valid, Signals.World;
      waits.Free(i);
    }

    /** Tests the conditions of a wait now, which may take signals. */
    method CheckConditions(c: Conditions) returns (fulfilled: bool, result: WaitResult, index: nat)
      requires Valid() && Waitable(State().world, c)
      modifies signals.Repr
      ensures Valid()
      ensures var k := old(State());
              var v := Check(k.world, c, k.now);
              && State() == k.(world := v.world)
              && fulfilled == v.Woken? && (fulfilled ==> result == v.result && index == v.index)
    {
      hide ReadyList.Valid, ReadyList.View, WaitList.Valid, WaitList.View, TaskPool.Valid, TaskPool.Live,
           TaskPool.Records, Signals.Valid, Signals.World, Check, Waitable;
      fulfilled, result, index := signals.Check(c, now);
    }

    /** Goes through the wait list once and makes ready every task whose wait is over. */
    method CheckWaitConditions()
      requires Valid() && Sound(State())
      modifies ready.Repr, waits.Repr, tasks.Repr, signals.Repr
      ensures Valid() && State() == Scan(old(State()), |old(State()).waiting|)
    {
      hide Valid, State, ReadyOk, WaitOk, NoneLost, IdleOk, CheckSlot, Waitable, RingOk;
      ghost var k := State();
      var slots := SlotCount();
      for i := 0 to slots
        invariant Valid() && Sound(k) && State() == Scan(k, i)
      {
        ScanKeepsSound(k, i);
        CheckWaitItem(i);
      }
    }

    method SlotCount() returns (n: nat)
      requires Valid()
      ensures Valid() && State() == old(State())
      ensures n == |State().waiting|
    {
      hide ReadyList.Valid, ReadyList.View, WaitList.Valid, WaitList.View, TaskPool.Valid, TaskPool.Live,
           TaskPool.Records, Signals.Valid, Signals.World;
      n := waits.items.maxSize;
    }

    method CheckWaitItem(i: nat)
      requires Valid() && Sound(State()) && i < |State().waiting|
      modifies ready.Repr, waits.Repr, tasks.Repr, signals.Repr
      ensures Valid() && State() == CheckSlot(old(State()), i)
    {
      hide Valid, State, ReadyOk, NoneLost, IdleOk, Waitable, RingOk, Check, AddReady;
      ghost var k := State();
      var item := GetWaitItem(i);
      if item.Some? {
        SeenIsShape(k, i);
        var fulfilled, result, index := CheckConditions(item.value.conditions);
        if fulfilled {
          var t := item.value.task;
          var added := AddReadyTask(t);
          if added {
            var task := GetTask(t);
            SetTask(t, task.(state := Ready, result := result, signalIndex := index));
            FreeWaitItem(i);
          }
        }
      }
    }

    static lemma SeenIsShape(k: Kernel, i: nat)
      requires Sound(k) && i < |k.waiting| && k.waiting[i].Some?
      ensures var item := k.waiting[i].value;
              && Waitable(k.world, item.conditions) && item.task < |k.live| && k.live[item.task]
              && var seen := k.(world := Check(k.world, item.conditions, k.now).world);
              && Shape(seen)
              && match AddReady(seen, item.task)
                 case None => true
                 case Some(r) => Shape(r) && r == seen.(ready := r.ready)
    {
      var v := Check(k.world, k.waiting[i].value.conditions, k.now);
      assert forall c :: Waitable(k.world, c) ==> Waitable(v.world, c);
    }

    // ---- contexts ------------------------------------------------------------

    /** The stack pointer goes to the task's record, and the registers are to follow. */
    method StoreContext(t: nat)
      requires Valid() && t < |State().live| && State().live[t]
      modifies this, tasks.Repr
      ensures Valid() && t < |old(State()).tasks| && State() == Scheduler.StoreContext(old(State()), t)
    {
      hide ReadyList.Valid, ReadyList.View, WaitList.Valid, WaitList.View, TaskPool.Valid, TaskPool.Live,
           TaskPool.Records, Signals.Valid, Signals.World;
      var task := tasks.Read(t);
      tasks.Write(t, task.(sp := psp));
      storeAt := t;
    }

    method LoadContext(t: nat)
      requires Valid() && t < |State().live| && State().live[t]
      modifies this
      ensures Valid() && t < |old(State()).tasks| && State() == Scheduler.LoadContext(old(State()), t)
    {
      hide ReadyList.Valid, ReadyList.View, WaitList.Valid, WaitList.View, TaskPool.Valid, TaskPool.Live,
           TaskPool.Records, Signals.Valid, Signals.World;
      var task := tasks.Read(t);
      loadFrom := t;
      psp := task.sp;
    }

    /** Registers out to one record, in from another. */
    method PendSVHandler()
      requires Valid() && State().storeAt < |State().tasks| && State().loadFrom < |State().tasks|
      modifies this, tasks.Repr
      ensures Valid() && State() == PendSV(old(State()))
    {
      hide ReadyList.Valid, ReadyList.View, WaitList.Valid, WaitList.View, TaskPool.Valid, TaskPool.Live,
           TaskPool.Records, Signals.Valid, Signals.World;
      tasks.SaveContext(storeAt, registers);
      registers := tasks.SavedContext(loadFrom);
    }

    method LoadRegisters()
      requires Valid() && State().loadFrom < |State().tasks|
      modifies this
      ensures Valid() && var k := old(State()); State() == k.(registers := k.tasks[k.loadFrom].context)
    {
      hide ReadyList.Valid, ReadyList.View, WaitList.Valid, WaitList.View, TaskPool.Valid, TaskPool.Live,
           TaskPool.Records, Signals.Valid, Signals.World;
      registers := tasks.SavedContext(loadFrom);
    }

    method LockEnter()
      requires Valid()
      modifies lock
      ensures Valid() && State() == Lock(old(State()))
    {
      hide ReadyList.Valid, ReadyList.View, WaitList.Valid, WaitList.View, TaskPool.Valid, TaskPool.Live,
           TaskPool.Records, Signals.Valid, Signals.World, Incremented, Decremented;
      lock.Enter();
    }

    method LockLeave()
      requires Valid()
      modifies lock
      ensures Valid() && State() == Unlock(old(State()))
    {
      hide ReadyList.Valid, ReadyList.View, WaitList.Valid, WaitList.View, TaskPool.Valid, TaskPool.Live,
           TaskPool.Records, Signals.Valid, Signals.World, Incremented, Decremented;
      lock.Leave();
    }

    // ---- handlers --------------------------------------------------------------

    static lemma HandlerIsRight(k: Kernel, ending: KernelMachine.Ending)
      requires Inv(Machine(k, Mode.Ending(ending))) && ending != Leave
      ensures Sound(k) && Shape(k) && CanChoose(k)
      ensures ending == ExecuteContextSwitch ==> k.current < |k.live| && k.live[k.current]
      ensures var r := if ending == ExecuteContextSwitch then Scheduler.SwitchContext(k) else Scheduler.LoadNextTask(k);
              && r.interlock == 0 && Shape(r) && TopRuns(r)
              && (k.started ==> CpusKept(k, ending, r))
      ensures ending == LoadNext ==> k.started
      ensures var c := Choose(k); |c.live| == |k.live| && c.live == k.live && |c.tasks| == |k.tasks|
    {
      SystemCallsRunTheTop(Machine(k, Mode.Ending(ending)));
      HandlersKeepInv(k);
      ChooseKeepsSound(k);
      if k.started {
        SystemCallKeepsCpus(k);
      }
      hide ReadyOk, WaitOk, NoneLost, IdleOk, Waitable, RingOk, CurrentTask, TopRuns, CpusKept;
    }

    /** The lock may as well be left before the contexts are stored and loaded. */
    static lemma SwitchInOrder(k: Kernel)
      requires Shape(k) && CanChoose(k)
      ensures var c := Choose(k);
              && k.current < |c.tasks| && c.current < |c.tasks|
              && Scheduler.SwitchContext(k) ==
                 PendSV(Unlock(Scheduler.LoadContext(Scheduler.StoreContext(c, k.current), c.current)))
    {
      hide CanChoose, Waitable, RingOk;
    }

    /** The system call that switches context: the lock is free again, no ready task outranks
        the one that runs, and every task keeps its processor state. */
    method SwitchContext()
      requires Valid() && Inv(Machine(State(), Mode.Ending(ExecuteContextSwitch)))
      modifies this, tasks.Repr, lock
      ensures Valid() && CanChoose(old(State())) && State() == Scheduler.SwitchContext(old(State()))
      ensures State().interlock == 0 && Shape(State()) && TopRuns(State())
      ensures old(State()).started ==> CpusKept(old(State()), ExecuteContextSwitch, State())
    {
      HandlerIsRight(State(), ExecuteContextSwitch);
      SwitchInOrder(State());
      hide Valid, State, Sound, Shape, CanChoose, TopRuns, CpusKept, Choose;
      var was := GetCurrentTaskId();
      var next := GetCurrentTask();
      StoreContext(was);
      LoadContext(next);
      LockLeave();
      PendSVHandler();
    }

    /** The one that stores nothing: the task that ends is not written to. */
    method LoadNextTask()
      requires Valid() && Inv(Machine(State(), Mode.Ending(LoadNext)))
      modifies this, tasks.Repr, lock
      ensures Valid() && CanChoose(old(State())) && State() == Scheduler.LoadNextTask(old(State()))
      ensures State().interlock == 0 && Shape(State()) && TopRuns(State())
      ensures CpusKept(old(State()), LoadNext, State())
    {
      HandlerIsRight(State(), LoadNext);
      hide Valid, State, Sound, Shape, CanChoose, TopRuns, CpusKept, Choose;
      var next := GetCurrentTask();
      LoadContext(next);
      LockLeave();
      LoadRegisters();
    }

    method TickTimers()
      requires Valid()
      modifies signals.Repr
      ensures Valid() && State() == old(State()).(world := SignalWorld.TickTimers(old(State()).world, old(State()).now))
    {
      hide ReadyList.Valid, ReadyList.View, WaitList.Valid, WaitList.View, TaskPool.Valid, TaskPool.Live,
           TaskPool.Records, Signals.Valid, Signals.World, SignalWorld.TickTimers;
      signals.TickTimers(now);
    }

    method CountTick()
      requires Valid()
      modifies this
      ensures Valid() && State() == old(State()).(now := Incremented(old(State()).now))
    {
      hide ReadyList.Valid, ReadyList.View, WaitList.Valid, WaitList.View, TaskPool.Valid, TaskPool.Live,
           TaskPool.Records, Signals.Valid, Signals.World, Incremented;
      now := Incremented(now);
    }

    /** Moves the time stamp once the interval is over. */
    method IsIntervalElapsed() returns (elapsed: bool)
      requires Valid()
      modifies this
      ensures Valid()
      ensures var k := old(State());
              && elapsed == (Elapsed(k.now, k.oldTime) > SWITCH_INTERVAL)
              && State() == if elapsed then k.(oldTime := k.now) else k
    {
      hide ReadyList.Valid, ReadyList.View, WaitList.Valid, WaitList.View, TaskPool.Valid, TaskPool.Live,
           TaskPool.Records, Signals.Valid, Signals.World;
      if Elapsed(now, oldTime) > SWITCH_INTERVAL {
        oldTime := now;
        return true;
      }
      return false;
    }

    method IsUnlocked() returns (zero: bool)
      requires Valid()
      ensures Valid() && State() == old(State())
      ensures zero <==> State().interlock == 0
    {
      hide ReadyList.Valid, ReadyList.View, WaitList.Valid, WaitList.View, TaskPool.Valid, TaskPool.Live,
           TaskPool.Records, Signals.Valid, Signals.World;
      zero := lock.IsLocked();
    }

    /** The SysTick handler, with PendSV when it asks for one; it leaves the kernel sound. */
    method Tick(ghost mode: Mode)
      requires Valid() && Inv(Machine(State(), mode))
      modifies Repr()
      ensures Valid() && Steps(Machine(old(State()), mode), TickStep, Machine(State(), mode))
      ensures Inv(Machine(State(), mode))
    {
      TickIsRight(State(), mode);
      hide Valid, State, Inv, Sound, Shape, SwitchIfElapsed, Ticking, CanChoose, MovedOn, Steps;
      var unlocked := IsUnlocked();
      if unlocked {
        CheckTimersAndWaits();
        RoundRobin();
      }
      CountTick();
    }

    static lemma TickIsRight(k: Kernel, mode: Mode)
      requires Inv(Machine(k, mode))
      ensures Shape(k) && Sound(k) && Sound(Ticking(k))
      ensures k.interlock == 0 ==> CanChoose(MovedOn(Ticking(k)))
      ensures Steps(Machine(k, mode), TickStep, Machine(Scheduler.Tick(k), mode))
              && Inv(Machine(Scheduler.Tick(k), mode))
      ensures k.interlock == 0 ==>
                var t := Ticking(k);
                t.current < |t.live| && t.live[t.current] && Shape(t) && t.current < |t.tasks| && InReady(t, t.current)
    {
      TickKeepsInv(Machine(k, mode));
      TickingKeepsSound(k);
      hide ReadyOk, WaitOk, NoneLost, IdleOk, Waitable, RingOk, SwitchIfElapsed, Ticking, CanChoose;
    }

    method CheckTimersAndWaits()
      requires Valid() && Sound(State())
      modifies ready.Repr, waits.Repr, tasks.Repr, signals.Repr
      ensures Valid() && State() == Ticking(old(State()))
    {
      TimersAreApart(State());
      hide Valid, State, ReadyOk, WaitOk, NoneLost, IdleOk, Waitable, RingOk, Scan, InReady, SignalWorld.TickTimers;
      TickTimers();
      CheckWaitConditions();
    }

    /** Switches to the next task when the interval is over and there is another one. */
    method RoundRobin()
      requires Valid() && Sound(State()) && State().live[State().current] && InReady(State(), State().current)
      modifies this, ready.Repr, tasks.Repr
      ensures Valid() && CanChoose(MovedOn(old(State()))) && State() == SwitchIfElapsed(old(State()))
    {
      AlwaysATask(State());
      hide Valid, ReadyList.Valid, ReadyList.View, WaitList.Valid, WaitList.View, TaskPool.Valid,
          TaskPool.Live, TaskPool.Records,
           Signals.Valid, Signals.World,
           ReadyOk, WaitOk, NoneLost, IdleOk, Waitable, RingOk, CurrentTask, MovedOn;
      ghost var k := State();
      MachineStateIsApart(k, k.(oldTime := k.now));
      var elapsed := IsIntervalElapsed();
      if elapsed {
        var was := current;
        var next := GetNextTask();
        if was != next {
          StoreContext(was);
          LoadContext(next);
          PendSVHandler();
        }
      }
    }

    // ---- the locked regions of the calls -----------------------------------------

    method CreateTask(hasRoutine: bool, priority: Priority, suspended: bool) returns (id: Option<nat>)
      requires Valid() && Shape(State())
      modifies tasks.Repr
      ensures Valid()
      ensures id == None <==> !hasRoutine || LeastFree(old(State()).live) == |old(State()).live|
      ensures id == None ==> State() == old(State())
      ensures id.Some? ==>
                var k := old(State());
                id.value == LeastFree(k.live) < |k.live| && State() == Made(k, priority, suspended)
    {
      FullExactlyWhenAllLive(State().live);
      hide ReadyList.Valid, ReadyList.View, WaitList.Valid, WaitList.View, TaskPool.Valid, TaskPool.Live,
           TaskPool.Records, Signals.Valid, Signals.World;
      id := tasks.Create(hasRoutine, priority, suspended);
    }

    method DestroyTask(t: nat)
      requires Valid() && t < |State().live|
      modifies tasks.Repr
      ensures Valid() && State() == old(State()).(live := old(State()).live[t := false])
    {
      hide ReadyList.Valid, ReadyList.View, WaitList.Valid, WaitList.View, TaskPool.Valid, TaskPool.Live,
           TaskPool.Records, Signals.Valid, Signals.World;
      tasks.Destroy(t);
    }

    /** Fails exactly without a routine or with a full pool; otherwise the new task is on its
        list, and no other task notices. The new task may be the current one of a kernel that
        has none yet. */
    method CreateRegion(hasRoutine: bool, priority: Priority, suspended: bool) returns (ending: KernelMachine.Ending)
      requires Valid() && Shape(State())
      requires State().current == LeastFree(State().live) || State().live[State().current]
      modifies tasks.Repr, ready.Repr
      ensures Valid()
      ensures After(State(), ending) == CreateBody(old(State()), hasRoutine, priority, suspended)
      ensures Sound(old(State())) ==> IsCreated(old(State()), After(State(), ending), hasRoutine, priority, suspended)
    {
      if Sound(State()) {
        CreateMeans(State(), hasRoutine, priority, suspended);
      }
      hide Valid, State, Sound, Shape, IsCreated, CreateBody;
      var created := NewTask(hasRoutine, priority, suspended);
      if !created {
        return Leave;
      }
      var running := IsStarted();
      var outranks := Outranks(priority);
      return if running && outranks && !suspended then ExecuteContextSwitch else Leave;
    }

    /** A record and, unless it starts suspended, a place on its ready list; without that place
        the record is given back. */
    method NewTask(hasRoutine: bool, priority: Priority, suspended: bool) returns (created: bool)
      requires Valid() && Shape(State())
      requires State().current == LeastFree(State().live) || State().live[State().current]
      modifies tasks.Repr, ready.Repr
      ensures Valid()
      ensures var a := CreateBody(old(State()), hasRoutine, priority, suspended);
              && State() == a.k
              && (!created ==> a.ending == Leave)
              && (created ==>
                    && State().current < |State().live| && State().live[State().current]
                    && a.ending == if State().started && priority < State().tasks[State().current].priority
                        && !suspended
                                   then ExecuteContextSwitch else Leave)
    {
      MadeIsShape(State(), priority, suspended);
      CreateInSteps(State(), hasRoutine, priority, suspended);
      hide Valid, State, Sound, Shape, AddReady, CreateBody, Made;
      var id := CreateTask(hasRoutine, priority, suspended);
      if id == None {
        return false;
      }
      if suspended {
        return true;
      }
      created := AddReadyTask(id.value);
      if !created {
        DestroyTask(id.value);
      }
    }

    method Outranks(priority: Priority) returns (yes: bool)
      requires Valid() && State().current < |State().live| && State().live[State().current]
      ensures Valid() && State() == old(State()) && State().current < |State().tasks|
      ensures yes <==> priority < State().tasks[State().current].priority
    {
      hide Valid, State;
      var t := GetCurrentTaskId();
      var task := GetTask(t);
      return priority < task.priority;
    }

    static lemma CreateInSteps(k: Kernel, hasRoutine: bool, priority: Priority, suspended: bool)
      requires Shape(k)
      ensures CreateBody(k, hasRoutine, priority, suspended) ==
                if !hasRoutine || LeastFree(k.live) == |k.live| then After(k, Leave)
                else
                  var id, m := LeastFree(k.live), Made(k, priority, suspended);
                  match if suspended then Some(m) else AddReady(m, id)
                  case None => After(k.(tasks := m.tasks), Leave)
                  case Some(r) =>
                    After(r, if k.started && priority < r.tasks[r.current].priority && !suspended
                             then ExecuteContextSwitch else Leave)
    {
      hide Waitable, RingOk, AddReady;
    }

    static lemma MadeIsShape(k: Kernel, priority: Priority, suspended: bool)
      requires Shape(k)
      requires k.current == LeastFree(k.live) || k.live[k.current]
      ensures LeastFree(k.live) < |k.live| ==>
                var id, m := LeastFree(k.live), Made(k, priority, suspended);
                && Shape(m) && id < |m.live| && m.live[id] && m.(live := m.live[id := false]) == k.(tasks := m.tasks)
                && m.started == k.started && m.current == k.current
                && m.current < |m.live| && m.live[m.current] && |m.tasks| == |m.live|
                && (AddReady(m, id).Some? ==>
                      var r := AddReady(m, id).value; Shape(r) && r == m.(ready := r.ready))
    {
      hide Waitable, RingOk;
      if LeastFree(k.live) < |k.live| {
        assert k.live[LeastFree(k.live) := true][LeastFree(k.live) := false] == k.live;
      }
    }

    /** The task's id is free again and it is on no list; no other task notices. */
    method TerminateRegion(id: nat) returns (ending: KernelMachine.Ending)
      requires Valid() && Sound(State()) && Legal(State(), Terminate(id))
      modifies ready.Repr, waits.Repr, tasks.Repr
      ensures Valid() && id < |old(State()).tasks|
      ensures After(State(), ending) == TerminateBody(old(State()), id)
      ensures Terminated(old(State()), After(State(), ending), id)
    {
      TerminateMeans(State(), id);
      hide Valid, State, ReadyOk, WaitOk, NoneLost, IdleOk, Waitable, RingOk, Terminated, RemoveReady, RemoveWait;
      RemoveTask(id);
      DestroyTask(id);
      var t := GetCurrentTaskId();
      var running := IsStarted();
      return if t == id && running then LoadNext else Leave;
    }

    /** The task is on no list and marked suspended; no other task notices. */
    method SuspendRegion(id: nat) returns (ending: KernelMachine.Ending)
      requires Valid() && Sound(State()) && Legal(State(), Suspend(id))
      modifies ready.Repr, waits.Repr, tasks.Repr
      ensures Valid() && id < |old(State()).tasks|
      ensures After(State(), ending) == SuspendBody(old(State()), id)
      ensures IsSuspended(old(State()), After(State(), ending), id)
    {
      SuspendMeans(State(), id);
      MarkedIsShape(State(), id, Suspended);
      hide Valid, State, Sound, Shape, SetState, IsSuspended, RemoveReady, RemoveWait;
      SetTaskState(id, Suspended);
      RemoveTask(id);
      var t := GetCurrentTaskId();
      return if t == id then ExecuteContextSwitch else Leave;
    }

    static lemma MarkedIsShape(k: Kernel, id: nat, state: TaskState)
      requires Sound(k) && id < |k.tasks| && k.live[id]
      ensures var s := SetState(k, id, state);
              && Shape(k) && Shape(s) && id < |k.live| && id < |s.live| && s.live[id] && |s.tasks| == |s.live|
              && s.current == k.current
              && RemoveReady(s, id).current == k.current
    {
      hide ReadyOk, WaitOk, NoneLost, IdleOk, Waitable, RingOk;
    }

    /** Exactly a task that is marked suspended, not the caller and not ready becomes ready. */
    method ResumeRegion(id: nat) returns (ending: KernelMachine.Ending)
      requires Valid() && Sound(State()) && State().live[State().current] && Legal(State(), Resume(id))
      modifies ready.Repr, tasks.Repr
      ensures Valid() && id < |old(State()).tasks|
      ensures After(State(), ending) == ResumeBody(old(State()), id)
      ensures IsResumed(old(State()), After(State(), ending), id)
    {
      ResumeMeans(State(), id);
      ResumeInSteps(State(), id);
      hide Valid, State, Sound, Shape, IsResumed, AddReady, ResumeBody;
      var t := GetCurrentTaskId();
      if id == t {
        return Leave;
      }
      var resumed := ResumeSuspendedTask(id);
      if !resumed {
        return Leave;
      }
      var task := GetTask(id);
      var outranks := Outranks(task.priority);
      return if outranks then ExecuteContextSwitch else Leave;
    }

    static lemma ResumeInSteps(k: Kernel, id: nat)
      requires Sound(k) && id < |k.tasks| && k.live[id] && k.live[k.current]
      ensures Shape(k) && |k.tasks| == |k.live|
      ensures var added := if k.tasks[id].state == Suspended then AddReady(k, id) else None;
              ResumeBody(k, id) ==
                if id == k.current || added == None then After(k, Leave)
                else After(SetState(added.value, k.current, Ready),
                           if k.tasks[id].priority < k.tasks[k.current].priority then ExecuteContextSwitch else Leave)
      ensures AddReady(k, id).Some? ==>
                var r := SetState(AddReady(k, id).value, k.current, Ready);
                && r.current == k.current && r.live == k.live && |r.tasks| == |k.tasks|
                && (forall t :: 0 <= t < |k.tasks| ==> r.tasks[t].priority == k.tasks[t].priority)
    {
      hide ReadyOk, WaitOk, NoneLost, IdleOk, Waitable, RingOk;
    }

    /** The state written is that of the current task. */
    method ResumeSuspendedTask(id: nat) returns (resumed: bool)
      requires Valid() && Sound(State()) && State().live[State().current] && id < |State().live| && State().live[id]
      modifies ready.Repr, tasks.Repr
      ensures Valid()
      ensures var k := old(State());
              && id < |k.tasks|
              && resumed == (k.tasks[id].state == Suspended && AddReady(k, id).Some?)
              && State() == if resumed then SetState(AddReady(k, id).value, k.current, Ready) else k
    {
      AddedIsApart(State(), id);
      hide Valid, State, Sound, Shape, AddReady;
      var t := GetCurrentTaskId();
      var task := GetTask(id);
      if task.state != Suspended {
        return false;
      }
      resumed := AddReadyTask(id);
      if resumed {
        SetTaskState(t, Ready);
      }
    }

    static lemma AddedIsApart(k: Kernel, id: nat)
      requires Sound(k) && id < |k.tasks| && k.live[id]
      ensures Shape(k) && k.current < |k.live| == |k.tasks|
      ensures AddReady(k, id).Some? ==> var r := AddReady(k, id).value; r == k.(ready := r.ready)
    {
      hide ReadyOk, WaitOk, NoneLost, IdleOk, Waitable, RingOk;
    }

    /** The caller moves to the wait list, which always has room for it. */
    method ParkCurrent(conditions: Conditions) returns (parked: bool)
      requires Valid() && Sound(State()) && State().live[State().current] && InReady(State(), State().current)
      requires Waitable(State().world, conditions)
      modifies waits.Repr, ready.Repr, tasks.Repr
      ensures Valid() && parked && Park(old(State()), conditions) == Some(State())
      ensures IsParked(old(State()), State(), conditions)
    {
      ParkMeans(State(), conditions);
      hide Valid, State, ReadyOk, WaitOk, NoneLost, IdleOk, RingOk, IsParked, AddWait, RemoveReady;
      ghost var k := State();
      var t := GetCurrentTaskId();
      parked := AddWaitItem(WaitItem(t, conditions));
      SlotIsShape(k, State(), conditions);
      RemoveReadyTask(t);
      SetTaskState(t, Scheduler.Waiting);
    }

    /** The waiting task's slot does not concern its ready list. */
    static lemma SlotIsShape(k: Kernel, s: Kernel, conditions: Conditions)
      requires Shape(k) && Waitable(k.world, conditions) && Park(k, conditions).Some?
      requires AddWait(k.waiting, WaitItem(k.current, conditions)).Some?
      requires s == k.(waiting := AddWait(k.waiting, WaitItem(k.current, conditions)).value)
      ensures Shape(s) && RemoveReady(s, k.current) == RemoveReady(k, k.current).(waiting := s.waiting)
    {
      hide RingOk, ReadyRings.RemoveTask;
    }

    method Now() returns (time: Word)
      requires Valid()
      ensures Valid() && State() == old(State()) && time == State().now
    {
      hide ReadyList.Valid, ReadyList.View, WaitList.Valid, WaitList.View, TaskPool.Valid, TaskPool.Live,
           TaskPool.Records, Signals.Valid, Signals.World;
      time := now;
    }

    /** The caller sleeps from now on; it ends in a context switch. */
    method SleepRegion(interval: Word) returns (ending: KernelMachine.Ending)
      requires Valid() && Sound(State()) && State().live[State().current] && InReady(State(), State().current)
      modifies waits.Repr, ready.Repr, tasks.Repr
      ensures Valid() && After(State(), ending) == SleepBody(old(State()), interval)
      ensures ending == ExecuteContextSwitch
      ensures IsParked(old(State()), State(), Conditions.Sleep(interval, old(State()).now))
    {
      hide Valid, State, ReadyOk, WaitOk, NoneLost, IdleOk, RingOk, IsParked, Park;
      var time := Now();
      var parked := ParkCurrent(Conditions.Sleep(interval, time));
      return ExecuteContextSwitch;
    }

    /** The caller waits from now on under its conditions; it ends in a context switch. */
    method WaitRegion(conditions: Conditions) returns (ending: KernelMachine.Ending)
      requires Valid() && Sound(State()) && State().live[State().current] && InReady(State(), State().current)
      requires conditions.WaitForObj? && Waitable(State().world, conditions)
      modifies waits.Repr, ready.Repr, tasks.Repr
      ensures Valid() && After(State(), ending) == WaitBody(old(State()), conditions)
      ensures ending == ExecuteContextSwitch
      ensures IsParked(old(State()), State(), conditions.(start := old(State()).now))
    {
      hide Valid, State, ReadyOk, WaitOk, NoneLost, IdleOk, RingOk, IsParked, Park;
      var time := Now();
      var parked := ParkCurrent(conditions.(start := time));
      return if parked then ExecuteContextSwitch else Leave;
    }

    method StartRegion() returns (ending: KernelMachine.Ending)
      requires Valid()
      modifies this
      ensures Valid() && After(State(), ending) == After(old(State()).(started := true), LoadNext)
    {
      hide ReadyList.Valid, ReadyList.View, WaitList.Valid, WaitList.View, TaskPool.Valid, TaskPool.Live,
           TaskPool.Records, Signals.Valid, Signals.World;
      started := true;
      return LoadNext;
    }

    // ---- whole calls -----------------------------------------------------------

    /** The work of a region. */
    method Region(call: Call) returns (ending: KernelMachine.Ending)
      requires Valid() && Inv(Machine(State(), Locked(call))) && Legal(State(), call)
      modifies Repr()
      ensures Valid() && After(State(), ending) == Body(old(State()), call)
    {
      hide Valid, State, ReadyOk, WaitOk, NoneLost, IdleOk, RingOk, CreateBody, TerminateBody, SuspendBody, ResumeBody,
           SleepBody, WaitBody, IsCreated, Terminated, IsSuspended, IsResumed, IsParked, InReady;
      match call {
        case Start => ending := StartRegion();
        case CreateTask(hasRoutine, priority, suspended) => ending := CreateRegion(hasRoutine, priority, suspended);
        case Terminate(id) => ending := TerminateRegion(id);
        case Suspend(id) => ending := SuspendRegion(id);
        case Resume(id) => ending := ResumeRegion(id);
        case Sleep(interval) => ending := SleepRegion(interval);
        case Wait(conditions) => ending := WaitRegion(conditions);
        case Other => ending := Leave;
      }
    }

    /** Either way a region ends. */
    method Finish(ending: KernelMachine.Ending)
      requires Valid() && Inv(Machine(State(), Mode.Ending(ending)))
      modifies this, tasks.Repr, lock
      ensures Valid() && Steps(Machine(old(State()), Mode.Ending(ending)), Close, Machine(State(), Unlocked))
      ensures Inv(Machine(State(), Unlocked))
    {
      FinishIsRight(State(), ending);
      hide Valid, State, Inv, TopRuns, CpusKept, Scheduler.SwitchContext, Scheduler.LoadNextTask, Steps, CanChoose;
      match ending {
        case Leave => LockLeave();
        case ExecuteContextSwitch => SwitchContext();
        case LoadNext => LoadNextTask();
      }
    }

    static lemma FinishIsRight(k: Kernel, ending: KernelMachine.Ending)
      requires Inv(Machine(k, Mode.Ending(ending)))
      ensures Shape(k) && (ending != Leave ==> CanChoose(k))
      ensures var r := match ending
                       case Leave => Unlock(k)
                       case ExecuteContextSwitch => Scheduler.SwitchContext(k)
                       case LoadNext => Scheduler.LoadNextTask(k);
              Steps(Machine(k, Mode.Ending(ending)), Close, Machine(r, Unlocked)) && Inv(Machine(r, Unlocked))
    {
      AlwaysATask(k);
      StepKeepsInv(Machine(k, Mode.Ending(ending)), Close);
    }

    /** The three steps of a call in the step machine, taken one after the other. */
    static ghost function Called(k: Kernel, call: Call): (r: Kernel)
      requires Inv(Machine(k, Unlocked)) && Legal(Lock(k), call)
      ensures Inv(Machine(r, Unlocked))
    {
      var locked := Machine(Lock(k), Locked(call));
      StepKeepsInv(Machine(k, Unlocked), Enter(call));
      StepKeepsInv(locked, Run);
      AlwaysATask(Next(locked, Run).k);
      StepKeepsInv(Next(locked, Run), Close);
      Next(Next(locked, Run), Close).k
    }

    /** A call of the user interface: lock, region, then the leave or the system call. */
    method Perform(call: Call)
      requires Valid() && Inv(Machine(State(), Unlocked)) && Legal(Lock(State()), call)
      modifies Repr()
      ensures Valid() && State() == Called(old(State()), call)
      ensures Inv(Machine(State(), Unlocked))
    {
      StepKeepsInv(Machine(State(), Unlocked), Enter(call));
      StepKeepsInv(Machine(Lock(State()), Locked(call)), Run);
      hide Valid, State, Sound, Body, Legal, Waitable, RingOk, CanChoose;
      LockEnter();
      var ending := Region(call);
      Finish(ending);
    }

    /** The arguments of a wait are checked before the lock is taken; refused exactly with no
        handle or too many. */
    method WaitForObjects(handles: seq<Word>, waitForAll: bool, waitForever: bool, timeout: Word)
        returns (accepted: bool)
      requires Valid() && Inv(Machine(State(), Unlocked)) && State().current != IDLE
      requires forall h :: h in handles ==> Alive(State().world, h)
      modifies Repr()
      ensures Valid() && Inv(Machine(State(), Unlocked))
      ensures accepted <==> 1 <= |handles| < MAX_INPUT_SIGNALS
      ensures accepted ==>
                var c := WaitForObj(handles, waitForAll, waitForever, timeout, old(State()).now);
                && Legal(Lock(old(State())), Call.Wait(c))
                && State() == Called(old(State()), Call.Wait(c))
      ensures !accepted ==> State() == old(State())
    {
      hide Valid, State, Inv, Called, Alive;
      if |handles| < 1 {
        return false;
      }
      if |handles| >= MAX_INPUT_SIGNALS {
        return false;
      }
      var time := Now();
      Perform(Call.Wait(WaitForObj(handles, waitForAll, waitForever, timeout, time)));
      return true;
    }

    /** What the caller reads after its wait: its own record's answer. */
    method ReadWaitResult() returns (result: WaitResult, index: nat)
      requires Valid() && Inv(Machine(State(), Unlocked))
      modifies lock
      ensures Valid() && State() == old(State()) && State().current < |State().tasks|
      ensures var task := State().tasks[State().current]; result == task.result && index == task.signalIndex
    {
      hide Valid, State, ReadyOk, WaitOk, NoneLost, IdleOk, Waitable, RingOk;
      LockEnter();
      var t := GetCurrentTaskId();
      var task := GetTask(t);
      LockLeave();
      return task.result, task.signalIndex;
    }

    /** `kernel::init`: creates the Idle task, which gets id 0, and reaches the state from which
        all runs start. */
    method Init()
      requires Valid() && Blank(State())
      modifies Repr()
      ensures Valid() && Initial(Machine(State(), Unlocked))
    {
      BlankBecomesInitial(State());
      hide Valid, State, Blank, Initial, Shape, IsCreated, CreateBody, Sound;
      LockEnter();
      var ending := CreateRegion(true, IDLE_PRIORITY, false);
      LockLeave();
    }

    static lemma BlankBecomesInitial(k: Kernel)
      requires Blank(k)
      ensures var l := Lock(k);
              && Shape(l) && l.current == LeastFree(l.live)
              && var a := CreateBody(l, true, IDLE_PRIORITY, false);
              a.ending == Leave && Initial(Machine(Unlock(a.k), Unlocked))
    {
      var l := Lock(k);
      assert Shape(l);
      assert LeastFree(l.live) == IDLE;
      IdleIsListed(Made(l, IDLE_PRIORITY, false));
    }

    static lemma IdleIsListed(m: Kernel)
      requires Shape(m) && m.tasks[IDLE].priority == IDLE_PRIORITY
      requires m.ready == [EMPTY_RING, EMPTY_RING, EMPTY_RING, EMPTY_RING]
      ensures AddReady(m, IDLE) == Some(m.(ready := [EMPTY_RING, EMPTY_RING, EMPTY_RING, TaskRing([IDLE], 0)]))
    {
      assert m.ready[IDLE_PRIORITY].tasks + [IDLE] == [IDLE];
      assert m.ready[IDLE_PRIORITY := TaskRing([IDLE], 0)] == [EMPTY_RING, EMPTY_RING, EMPTY_RING, TaskRing([IDLE], 0)];
    }
  }

  const MAX_INPUT_SIGNALS: nat := 8
}
