/** Runs of the kernel machine from `kernel::init`, and what every run keeps. */
module KernelRuns {
  import opened Slots
  import opened ReadyRings
  import opened Handles
  import opened SignalWorld
  import opened WaitConditions
  import opened Scheduler
  import opened KernelMachine
  import opened KernelSafety

  ghost predicate IsRun(m: Machine, steps: seq<Step>)
    decreases |steps|
  {
    steps == [] || (Enabled(m, steps[0]) && IsRun(Next(m, steps[0]), steps[1..]))
  }

  ghost function RunFrom(m: Machine, steps: seq<Step>): Machine
    requires IsRun(m, steps)
    decreases |steps|
  {
    if steps == [] then m else RunFrom(Next(m, steps[0]), steps[1..])
  }

  lemma {:induction false} RunKeepsInv(m: Machine, steps: seq<Step>)
    requires Inv(m) && IsRun(m, steps)
    ensures Inv(RunFrom(m, steps))
    decreases |steps|
  {
    if steps != [] {
      StepKeepsInv(m, steps[0]);
      RunKeepsInv(Next(m, steps[0]), steps[1..]);
    }
  }

  lemma {:induction false} RunInTwoParts(m: Machine, a: seq<Step>, b: seq<Step>)
    requires IsRun(m, a) && IsRun(RunFrom(m, a), b)
    ensures IsRun(m, a + b) && RunFrom(m, a + b) == RunFrom(RunFrom(m, a), b)
    decreases |a|
  {
    if a == [] {
      assert a + b == b;
    } else {
      assert (a + b)[1..] == a[1..] + b;
      RunInTwoParts(Next(m, a[0]), a[1..], b);
    }
  }

  // ---- the kernel lock -----------------------------------------------------

  /** In every reachable state the interlock is 0 or 1; it is 1 exactly while the running thread
      is in a bracketed region or has a system call pending, so every system call is issued at
      1; and once the handler or the leave has run it is 0. */
  lemma LockDiscipline(init: Machine, steps: seq<Step>)
    requires Initial(init) && IsRun(init, steps)
    ensures var m := RunFrom(init, steps);
            && m.k.interlock <= 1
            && (m.k.interlock == 1 <==> m.mode.Locked? || m.mode.Ending?)
            && (Enabled(m, Close) ==> m.k.interlock == 1 && Next(m, Close).k.interlock == 0)
  {
    InitialInv(init);
    RunKeepsInv(init, steps);
    var m := RunFrom(init, steps);
    if Enabled(m, Close) {
      StepKeepsInv(m, Close);
    }
  }

  /** No path leaves the ticks blocked: from any reachable locked state, a caller that keeps to
      the documented rules is unlocked again after at most two steps of the running thread,
      whatever those steps are. */
  lemma LockIsReleased(init: Machine, steps: seq<Step>)
    requires Initial(init) && IsRun(init, steps)
    requires var m := RunFrom(init, steps); m.mode.Locked? ==> Legal(m.k, m.mode.call)
    ensures var m := RunFrom(init, steps);
            match m.mode
            case Unlocked => m.k.interlock == 0
            case Ending(_) => Enabled(m, Close) && Next(m, Close).k.interlock == 0
            case Locked(_) =>
              && Enabled(m, Run)
              && var r := Next(m, Run);
              && Enabled(r, Close) && Next(r, Close).k.interlock == 0
  {
    InitialInv(init);
    RunKeepsInv(init, steps);
    var m := RunFrom(init, steps);
    AlwaysATask(m.k);
    if m.mode.Locked? {
      StepKeepsInv(m, Run);
      var r := Next(m, Run);
      AlwaysATask(r.k);
      StepKeepsInv(r, Close);
    } else if m.mode.Ending? {
      StepKeepsInv(m, Close);
    }
  }

  /** A tick that finds the lock taken only counts time: a region is one step. */
  lemma LockedTickOnlyCounts(m: Machine)
    requires Inv(m) && m.mode != Unlocked
    ensures Enabled(m, TickStep)
    ensures Next(m, TickStep) == m.(k := m.k.(now := Incremented(m.k.now)))
  {
  }

  /** Whoever is chosen to run exists and is ready, and there always is such a task. */
  lemma RunsOnlyReadyTasks(init: Machine, steps: seq<Step>)
    requires Initial(init) && IsRun(init, steps)
    ensures var m := RunFrom(init, steps);
            && Shape(m.k) && CanChoose(m.k)
            && m.k.live[CurrentTask(m.k).value]
            && (m.mode == Unlocked ==> m.k.live[m.k.current] && InReady(m.k, m.k.current))
            && Enabled(m, TickStep)
  {
    InitialInv(init);
    RunKeepsInv(init, steps);
    var m := RunFrom(init, steps);
    AlwaysATask(m.k);
    TickKeepsInv(m);
    hide Waitable, RingOk, WaitOk, NoneLost, Ticking;
  }

  // ---- no task is lost -----------------------------------------------------

  /** In every reachable state each existing task is ready, or waits in exactly one slot, or is
      marked suspended and so can be resumed; never two of ready and waiting at once. */
  lemma NoTaskIsLost(init: Machine, steps: seq<Step>, t: nat)
    requires Initial(init) && IsRun(init, steps)
    requires var k := RunFrom(init, steps).k; t < |k.tasks| == |k.live| && k.live[t] && |k.ready| == PRIORITIES
    ensures var k := RunFrom(init, steps).k;
            && (InReady(k, t) || WaitsIn(k.waiting, t) || k.tasks[t].state == Suspended)
            && !(InReady(k, t) && WaitsIn(k.waiting, t))
            && (forall i, j :: 0 <= i < j < |k.waiting| && k.waiting[i].Some? && k.waiting[j].Some? ==>
                  k.waiting[i].value.task != k.waiting[j].value.task)
  {
    InitialInv(init);
    RunKeepsInv(init, steps);
  }

  /** The wait list has room for the running task: it has as many slots as there can be tasks,
      each waiting task takes one, and the running task takes none. So a sleep is never
      skipped and a wait never fails for want of a slot. */
  lemma ParkAlwaysFindsRoom(k: Kernel, conditions: Conditions)
    requires Sound(k) && InReady(k, k.current) && Waitable(k.world, conditions)
    ensures Park(k, conditions).Some?
  {
    if forall i :: 0 <= i < |k.waiting| ==> k.waiting[i].Some? {
      FullListHoldsEveryTask(k.waiting, k.current);
    }
  }

  lemma FullListHoldsEveryTask(waiting: seq<Option<WaitItem>>, t: nat)
    requires t < |waiting|
    requires forall i :: 0 <= i < |waiting| ==> waiting[i].Some? && waiting[i].value.task < |waiting|
    requires forall i, j :: 0 <= i < j < |waiting| ==> waiting[i].value.task != waiting[j].value.task
    ensures WaitsIn(waiting, t)
  {
    var owners := seq(|waiting|, i requires 0 <= i < |waiting| => waiting[i].value.task);
    DistinctBelow(owners, |waiting|);
    assert t in owners;
    var i :| 0 <= i < |owners| && owners[i] == t;
    assert waiting[i].value.task == t;
  }

  /** A ready list has room for every task that is not in it. */
  lemma ReadyListHasRoom(k: Kernel, t: nat)
    requires Shape(k) && ReadyOk(k) && t < |k.tasks| && !InReady(k, t)
    ensures AddReady(k, t).Some?
  {
    var ring := k.ready[k.tasks[t].priority];
    assert forall x :: x in ring.tasks ==> x < |k.tasks|;
    DistinctBelow(ring.tasks, |k.tasks|);
  }

  /** Creating a task fails exactly without a routine or with a full pool; otherwise the task
      exists, under the least free id, and is ready unless it was to start suspended. */
  lemma CreateFailsExactly(k: Kernel, hasRoutine: bool, priority: Priority, suspended: bool)
    requires Sound(k)
    ensures var r := CreateBody(k, hasRoutine, priority, suspended).k;
            var id := LeastFree(k.live);
            if !hasRoutine || |Live(k.live)| == |k.live| then r == k
            else id < |k.live| && r.live == k.live[id := true] && r.tasks[id].priority == priority
                 && (InReady(r, id) <==> !suspended)
  {
    FullExactlyWhenAllLive(k.live);
    var id := LeastFree(k.live);
    if hasRoutine && id < |k.live| {
      var task := k.tasks[id].(sp := k.tasks[id].frame, priority := priority,
                               state := if suspended then Suspended else Ready);
      var made := With(k, id, task).(live := k.live[id := true]);
      assert !InReady(made, id);
      ReadyListHasRoom(made, id);
    }
  }
}
