/** The scheduler and the context switch on values: tasks, ready lists, wait list, and the
    processor's process stack pointer and callee-saved registers
    (source/scheduler, source/task/task.hpp, source/kernel.cpp). */
module Scheduler {
  import opened Slots
  import opened ReadyRings
  import opened Handles
  import opened SignalWorld
  import opened WaitConditions

  /** High, Medium, Low, Idle: the smaller number runs first. */
  const PRIORITIES: nat := 4

  type Priority = p: nat | p < PRIORITIES

  const IDLE_PRIORITY: Priority := 3

  /** The Idle task is created first, by `kernel::init`, and so has id 0. */
  const IDLE: nat := 0

  datatype TaskState = Suspended | Waiting | Ready | Running

  /** r4 to r11. */
  type Registers = seq<Word>

  datatype Task = Task(
    frame: Word,                      // where a fresh stack frame of this record starts
    sp: Word,
    context: Registers,
    priority: Priority,
    state: TaskState,
    result: WaitResult,
    signalIndex: nat)

  datatype WaitItem = WaitItem(task: nat, conditions: Conditions)

  datatype Kernel = Kernel(
    started: bool,
    interlock: Word,
    live: seq<bool>,                  // the task pool's flags
    tasks: seq<Task>,                 // and records; a freed record keeps its bytes
    ready: seq<TaskRing>,             // by priority
    waiting: seq<Option<WaitItem>>,
    current: nat,
    world: World,
    now: Word,
    oldTime: Word,                    // of the last round-robin interval
    psp: Word,
    registers: Registers,
    storeAt: nat,                     // task whose context PendSV stores into
    loadFrom: nat)                    // task whose context is loaded next

  ghost predicate Shape(k: Kernel) {
    && 0 < |k.tasks| == |k.live| == |k.waiting|
    && |k.ready| == PRIORITIES
    && k.current < |k.tasks|
    && (forall p :: 0 <= p < PRIORITIES ==> RingOk(k.ready[p]))
    && (forall i :: 0 <= i < |k.waiting| && k.waiting[i].Some? ==>
          k.waiting[i].value.task < |k.tasks| && Waitable(k.world, k.waiting[i].value.conditions))
  }

  predicate InReady(k: Kernel, t: nat)
    requires |k.ready| == PRIORITIES && t < |k.tasks|
  {
    t in k.ready[k.tasks[t].priority].tasks
  }

  predicate WaitsIn(waiting: seq<Option<WaitItem>>, t: nat) {
    exists i :: 0 <= i < |waiting| && waiting[i].Some? && waiting[i].value.task == t
  }

  function With(k: Kernel, t: nat, task: Task): Kernel
    requires t < |k.tasks|
  {
    k.(tasks := k.tasks[t := task])
  }

  function SetState(k: Kernel, t: nat, state: TaskState): Kernel
    requires t < |k.tasks|
  {
    With(k, t, k.tasks[t].(state := state))
  }

  // ---- the ready lists -----------------------------------------------------

  function AddReady(k: Kernel, t: nat): (r: Option<Kernel>)
    requires Shape(k) && t < |k.tasks|
    ensures r.Some? ==> Shape(r.value) && r.value == k.(ready := r.value.ready)
    ensures r == None <==> InReady(k, t) || |k.ready[k.tasks[t].priority].tasks| >= |k.tasks|
    ensures r.Some? ==> forall p, x :: 0 <= p < PRIORITIES ==>
              (x in r.value.ready[p].tasks <==> x in k.ready[p].tasks || (x == t && p == k.tasks[t].priority))
  {
    var p := k.tasks[t].priority;
    OperationsKeepRing(|k.tasks|, k.ready[p], t);
    match AddTask(|k.tasks|, k.ready[p], t)
    case Some(ring) => Some(k.(ready := k.ready[p := ring]))
    case None => None
  }

  function RemoveReady(k: Kernel, t: nat): (r: Kernel)
    requires Shape(k) && t < |k.tasks|
    ensures Shape(r) && r == k.(ready := r.ready)
    ensures forall p, x :: 0 <= p < PRIORITIES ==>
              (x in r.ready[p].tasks <==> x in k.ready[p].tasks && !(x == t && p == k.tasks[t].priority))
  {
    var p := k.tasks[t].priority;
    OperationsKeepRing(|k.tasks|, k.ready[p], t);
    k.(ready := k.ready[p := RemoveTask(k.ready[p], t)])
  }

  /** The task to serve now, without moving any list on. */
  function CurrentTask(k: Kernel): (t: Option<nat>)
    requires Shape(k)
    ensures t == None <==> forall p :: 0 <= p < PRIORITIES ==> k.ready[p].tasks == []
    ensures t.Some? ==> t.value in k.ready[FirstReady(k.ready)].tasks
  {
    var p := FirstReady(k.ready);
    if p < PRIORITIES then Served(k.ready[p]) else None
  }

  /** The highest-priority list moved on to its next task. */
  function MovedOn(k: Kernel): (r: Kernel)
    requires Shape(k)
    ensures Shape(r) && r == k.(ready := r.ready)
    ensures forall p :: 0 <= p < PRIORITIES ==> r.ready[p].tasks == k.ready[p].tasks
    ensures FirstReady(r.ready) == FirstReady(k.ready)
  {
    var p := FirstReady(k.ready);
    if p < PRIORITIES then
      OperationsKeepRing(|k.tasks|, k.ready[p], 0);
      var r := k.(ready := k.ready[p := Advance(k.ready[p])]);
      assert FirstReady(r.ready) == p by {
        var q := FirstReady(r.ready);
        assert r.ready[p].tasks != [];
        assert q <= p ==> r.ready[q].tasks == k.ready[q].tasks;
      }
      r
    else k
  }

  // ---- the wait list -------------------------------------------------------

  function SlotsUsed(waiting: seq<Option<WaitItem>>): (used: seq<bool>)
    ensures |used| == |waiting|
    ensures forall i :: 0 <= i < |waiting| ==> used[i] == waiting[i].Some?
  {
    seq(|waiting|, i requires 0 <= i < |waiting| => waiting[i].Some?)
  }

  /** An item in the least free slot, or nothing in a full list. */
  function AddWait(waiting: seq<Option<WaitItem>>, item: WaitItem): (r: Option<seq<Option<WaitItem>>>)
    ensures r == None <==> forall i :: 0 <= i < |waiting| ==> waiting[i].Some?
    ensures r.Some? ==> exists i :: 0 <= i < |waiting| && waiting[i] == None && r.value == waiting[i := Some(item)]
  {
    var i := LeastFree(SlotsUsed(waiting));
    if i < |waiting| then
      assert waiting[i] == None;
      Some(waiting[i := Some(item)])
    else
      assert forall i :: 0 <= i < |waiting| ==> SlotsUsed(waiting)[i];
      None
  }

  /** Frees the first slot that holds the task. */
  function RemoveWait(waiting: seq<Option<WaitItem>>, t: nat): (r: seq<Option<WaitItem>>)
    ensures |r| == |waiting|
    ensures forall i :: 0 <= i < |r| ==>
              r[i] == waiting[i] || (r[i] == None && waiting[i].Some? && waiting[i].value.task == t)
    ensures (forall i, j :: 0 <= i < j < |waiting| && waiting[i].Some? && waiting[j].Some? ==>
               waiting[i].value.task != waiting[j].value.task) ==> !WaitsIn(r, t)
  {
    if waiting == [] then []
    else if waiting[0].Some? && waiting[0].value.task == t then [None] + waiting[1..]
    else [waiting[0]] + RemoveWait(waiting[1..], t)
  }

  // ---- choosing the next task ----------------------------------------------

  /** `getCurrentTask`: the chosen task becomes the current, running one. */
  function Choose(k: Kernel): (r: Kernel)
    requires Shape(k) && CurrentTask(k).Some?
    requires CurrentTask(k).value < |k.tasks|
    ensures Shape(r)
  {
    var next := CurrentTask(k).value;
    SetState(k, next, Running).(current := next)
  }

  /** `getNextTask`: round robin within the highest priority that has a ready task. */
  function ChooseNext(k: Kernel): (r: Kernel)
    requires Shape(k) && CurrentTask(MovedOn(k)).Some?
    requires CurrentTask(MovedOn(k)).value < |k.tasks|
    ensures Shape(r)
  {
    var m := MovedOn(k);
    var next := CurrentTask(m).value;
    SetState(SetState(m, k.current, Ready), next, Running).(current := next)
  }

  // ---- storing and loading contexts ----------------------------------------

  function StoreContext(k: Kernel, t: nat): Kernel
    requires t < |k.tasks|
  {
    With(k, t, k.tasks[t].(sp := k.psp)).(storeAt := t)
  }

  function LoadContext(k: Kernel, t: nat): Kernel
    requires t < |k.tasks|
  {
    k.(loadFrom := t, psp := k.tasks[t].sp)
  }

  /** The PendSV handler: callee-saved registers out to one task, in from the other. */
  function PendSV(k: Kernel): Kernel
    requires k.storeAt < |k.tasks| && k.loadFrom < |k.tasks|
  {
    var stored := With(k, k.storeAt, k.tasks[k.storeAt].(context := k.registers));
    stored.(registers := stored.tasks[k.loadFrom].context)
  }

  /** The processor handed from task `from` to the current task. */
  function Swapped(k: Kernel, from: nat): Kernel
    requires from < |k.tasks| && k.current < |k.tasks|
  {
    PendSV(LoadContext(StoreContext(k, from), k.current))
  }

  function Unlock(k: Kernel): Kernel {
    k.(interlock := Decremented(k.interlock))
  }

  predicate CanChoose(k: Kernel)
    requires Shape(k)
  {
    CurrentTask(k).Some? && CurrentTask(k).value < |k.tasks|
  }

  /** The system call that switches context, with PendSV as its last part. */
  function SwitchContext(k: Kernel): (r: Kernel)
    requires Shape(k) && CanChoose(k)
  {
    var c := Choose(k);
    Swapped(Unlock(c), k.current)
  }

  /** The system call that loads the next task and stores nothing. */
  function LoadNextTask(k: Kernel): (r: Kernel)
    requires Shape(k) && CanChoose(k)
  {
    var c := Choose(k);
    var l := Unlock(LoadContext(c, c.current));
    l.(registers := l.tasks[l.loadFrom].context)
  }

  // ---- the tick --------------------------------------------------------------

  /** One slot of the wait list: a task whose wait is over is made ready and told why. */
  function CheckSlot(k: Kernel, i: nat): (r: Kernel)
    requires Shape(k) && i < |k.waiting|
    ensures Shape(r) && |r.waiting| == |k.waiting|
  {
    match k.waiting[i]
    case None => k
    case Some(item) =>
      var v := Check(k.world, item.conditions, k.now);
      assert forall c :: Waitable(k.world, c) ==> Waitable(v.world, c);
      var seen := k.(world := v.world);
      match v
      case Waiting(_) => seen
      case Woken(result, index, _) =>
        match AddReady(seen, item.task)
        case None => seen
        case Some(added) =>
          var task := added.tasks[item.task].(state := Ready, result := result, signalIndex := index);
          With(added, item.task, task).(waiting := added.waiting[i := None])
  }

  /** The wait list after the first `n` slots have had their turn. */
  function Scan(k: Kernel, n: nat): (r: Kernel)
    requires Shape(k) && n <= |k.waiting|
    ensures Shape(r) && |r.waiting| == |k.waiting|
  {
    if n == 0 then k else CheckSlot(Scan(k, n - 1), n - 1)
  }

  const SWITCH_INTERVAL: Word := 10

  /** What the tick does before it may switch: timers, waits, then the interval. */
  function Ticking(k: Kernel): (r: Kernel)
    requires Shape(k)
    ensures Shape(r)
  {
    Scan(k.(world := TickTimers(k.world, k.now)), |k.waiting|)
  }

  /** Round robin: once the interval is over the next task of the highest ready priority is
      chosen, and PendSV switches to it if it is another one. */
  function SwitchIfElapsed(k: Kernel): (r: Kernel)
    requires Shape(k) && CanChoose(MovedOn(k))
  {
    if Elapsed(k.now, k.oldTime) <= SWITCH_INTERVAL then k
    else
      var u := k.(oldTime := k.now);
      var c := ChooseNext(u);
      if c.current == u.current then c
      else Swapped(c, u.current)
  }

  /** The SysTick handler, with PendSV when it asks for one. */
  function Tick(k: Kernel): (r: Kernel)
    requires Shape(k) && (k.interlock == 0 ==> CanChoose(MovedOn(Ticking(k))))
  {
    var r := if k.interlock != 0 then k else SwitchIfElapsed(Ticking(k));
    r.(now := Incremented(r.now))
  }
}

/** The kernel as a step machine: task code, the locked regions of its calls, the two system
    calls and the tick, in any interleaving (source/kernel.cpp). */
module KernelMachine {
  import opened Slots
  import opened ReadyRings
  import opened Handles
  import opened SignalWorld
  import opened WaitConditions
  import opened Scheduler

  /** A locked region of the user calls. `Other` stands for those that touch neither the
      scheduler nor the task pool: timers, task::getCurrent, critical sections, reading a
      wait's result. */
  datatype Call =
    | Start
    | CreateTask(hasRoutine: bool, priority: Priority, suspended: bool)
    | Terminate(id: nat)
    | Suspend(id: nat)
    | Resume(id: nat)
    | Sleep(interval: Word)
    | Wait(conditions: Conditions)
    | Other

  /** How a region ends: by `lock::leave`, or by a system call whose handler unlocks. */
  datatype Ending = Leave | ExecuteContextSwitch | LoadNext

  /** Where the running thread is. */
  datatype Mode = Unlocked | Locked(call: Call) | Ending(ending: Ending)

  datatype Machine = Machine(k: Kernel, mode: Mode)

  datatype After = After(k: Kernel, ending: Ending)

  // ---- the regions ---------------------------------------------------------

  function CreateBody(k: Kernel, hasRoutine: bool, priority: Priority, suspended: bool): (a: After)
    requires Shape(k)
    ensures Shape(a.k)
  {
    var id := LeastFree(k.live);
    if !hasRoutine || id == |k.live| then After(k, Leave)
    else
      var task := k.tasks[id].(sp := k.tasks[id].frame, priority := priority,
                               state := if suspended then Suspended else Ready);
      var made := With(k, id, task).(live := k.live[id := true]);
      var added := if suspended then Some(made) else AddReady(made, id);
      match added
      case None => After(made.(live := k.live), Leave)
      case Some(r) =>
        After(r, if k.started && priority < r.tasks[r.current].priority && !suspended
                 then ExecuteContextSwitch else Leave)
  }

  function TerminateBody(k: Kernel, id: nat): (a: After)
    requires Shape(k) && id < |k.tasks|
    ensures Shape(a.k)
  {
    var r := RemoveReady(k, id);
    After(r.(waiting := RemoveWait(k.waiting, id), live := k.live[id := false]),
          if k.current == id && k.started then LoadNext else Leave)
  }

  function SuspendBody(k: Kernel, id: nat): (a: After)
    requires Shape(k) && id < |k.tasks|
    ensures Shape(a.k)
  {
    var r := RemoveReady(SetState(k, id, Suspended), id);
    After(r.(waiting := RemoveWait(k.waiting, id)),
          if k.current == id then ExecuteContextSwitch else Leave)
  }

  /** The state written on success is the current task's, not the resumed one's. */
  function ResumeBody(k: Kernel, id: nat): (a: After)
    requires Shape(k) && id < |k.tasks|
    ensures Shape(a.k)
  {
    if id == k.current || k.tasks[id].state != Suspended then After(k, Leave)
    else
      match AddReady(k, id)
      case None => After(k, Leave)
      case Some(r) =>
        After(SetState(r, k.current, Ready),
              if k.tasks[id].priority < k.tasks[k.current].priority then ExecuteContextSwitch else Leave)
  }

  /** The current task leaves the ready list for the wait list, if that has room. */
  function Park(k: Kernel, conditions: Conditions): (r: Option<Kernel>)
    requires Shape(k) && Waitable(k.world, conditions)
    ensures r.Some? ==> Shape(r.value)
    ensures r == None <==> forall i :: 0 <= i < |k.waiting| ==> k.waiting[i].Some?
  {
    match AddWait(k.waiting, WaitItem(k.current, conditions))
    case None => None
    case Some(waiting) => Some(SetState(RemoveReady(k, k.current).(waiting := waiting), k.current, Scheduler.Waiting))
  }

  /** A sleep that finds no room is not noticed: the task goes on after the switch. */
  function SleepBody(k: Kernel, interval: Word): (a: After)
    requires Shape(k)
    ensures Shape(a.k)
  {
    match Park(k, WaitConditions.Sleep(interval, k.now))
    case None => After(k, ExecuteContextSwitch)
    case Some(r) => After(r, ExecuteContextSwitch)
  }

  function WaitBody(k: Kernel, conditions: Conditions): (a: After)
    requires Shape(k) && conditions.WaitForObj? && Waitable(k.world, conditions)
    ensures Shape(a.k)
  {
    match Park(k, conditions.(start := k.now))
    case None => After(k, Leave)
    case Some(r) => After(r, ExecuteContextSwitch)
  }

  /** What the documentation asks of callers: ids of existing tasks, objects that exist, and
      an Idle task that is always available. A call to suspend or resume returns before it takes
      the lock while the kernel has not started, and a task cannot end itself until then. */
  ghost predicate Legal(k: Kernel, call: Call) {
    match call
    case Start => !k.started
    case CreateTask(_, _, _) => true
    case Terminate(id) => id < |k.live| && k.live[id] && id != IDLE && (k.started || id != k.current)
    case Suspend(id) => k.started && id < |k.live| && k.live[id] && id != IDLE
    case Resume(id) => k.started && id < |k.live| && k.live[id]
    case Sleep(_) => k.current != IDLE
    case Wait(c) => k.current != IDLE && c.WaitForObj? && Waitable(k.world, c)
    case Other => true
  }

  function Body(k: Kernel, call: Call): (a: After)
    requires Shape(k) && Legal(k, call)
    ensures Shape(a.k)
  {
    match call
    case Start => After(k.(started := true), LoadNext)
    case CreateTask(hasRoutine, priority, suspended) => CreateBody(k, hasRoutine, priority, suspended)
    case Terminate(id) => TerminateBody(k, id)
    case Suspend(id) => SuspendBody(k, id)
    case Resume(id) => ResumeBody(k, id)
    case Sleep(interval) => SleepBody(k, interval)
    case Wait(conditions) => WaitBody(k, conditions)
    case Other => After(k, Leave)
  }

  // ---- the steps -----------------------------------------------------------

  datatype Step =
    | Enter(call: Call)                             // lock::enter of a call's region
    | Run                                           // the region's work
    | Close                                         // lock::leave or the system call
    | TickStep                                      // SysTick, at any moment, also before the start
    | Compute(psp: Word, registers: Registers)      // task code, or `main` before the start
    | Outside(world: World)                         // interrupts and calls on events and queues

  ghost predicate Enabled(m: Machine, step: Step) {
    && Shape(m.k)
    && match step
       case Enter(call) => m.mode == Unlocked
       case Run => m.mode.Locked? && Legal(m.k, m.mode.call)
       case Close => m.mode.Ending? && (m.mode.ending != Leave ==> CanChoose(m.k))
       case TickStep => (m.k.interlock == 0 ==> CanChoose(MovedOn(Ticking(m.k))))
       case Compute(_, _) => true
       case Outside(world) =>
         forall i :: 0 <= i < |m.k.waiting| && m.k.waiting[i].Some? ==> Waitable(world, m.k.waiting[i].value.conditions)
  }

  function Lock(k: Kernel): Kernel {
    k.(interlock := Incremented(k.interlock))
  }

  function Next(m: Machine, step: Step): (r: Machine)
    requires Enabled(m, step)
  {
    match step
    case Enter(call) => Machine(Lock(m.k), Locked(call))
    case Run => var a := Body(m.k, m.mode.call); Machine(a.k, Ending(a.ending))
    case Close =>
      Machine(match m.mode.ending
              case Leave => Unlock(m.k)
              case ExecuteContextSwitch => SwitchContext(m.k)
              case LoadNext => LoadNextTask(m.k),
              Unlocked)
    case TickStep => m.(k := Tick(m.k))
    case Compute(psp, registers) => m.(k := m.k.(psp := psp, registers := registers))
    case Outside(world) => m.(k := m.k.(world := world))
  }

  /** A step of the machine from one state to another. */
  ghost predicate Steps(m: Machine, step: Step, r: Machine) {
    Enabled(m, step) && r == Next(m, step)
  }

  // ---- the invariant -------------------------------------------------------

  /** Every listed task exists and is listed under its priority. */
  ghost predicate ReadyOk(k: Kernel)
    requires Shape(k)
  {
    forall p, t {:trigger t in k.ready[p].tasks} :: 0 <= p < PRIORITIES && t in k.ready[p].tasks ==>
      t < |k.tasks| && k.live[t] && k.tasks[t].priority == p
  }

  /** Every waiting task exists, is marked so, waits once, and is not ready at the same time. */
  ghost predicate WaitOk(k: Kernel)
    requires Shape(k)
  {
    && (forall i :: 0 <= i < |k.waiting| && k.waiting[i].Some? ==>
          var t := k.waiting[i].value.task;
          k.live[t] && t != IDLE && !InReady(k, t) && k.tasks[t].state == Scheduler.Waiting)
    && (forall i, j :: 0 <= i < j < |k.waiting| && k.waiting[i].Some? && k.waiting[j].Some? ==>
          k.waiting[i].value.task != k.waiting[j].value.task)
  }

  /** A task that is neither ready nor waiting can be resumed. */
  ghost predicate NoneLost(k: Kernel)
    requires Shape(k)
  {
    forall t :: 0 <= t < |k.tasks| && k.live[t] && !InReady(k, t) && !WaitsIn(k.waiting, t) ==>
      k.tasks[t].state == Suspended
  }

  ghost predicate IdleOk(k: Kernel)
    requires Shape(k)
  {
    k.live[IDLE] && k.tasks[IDLE].priority == IDLE_PRIORITY && InReady(k, IDLE)
  }

  ghost predicate Sound(k: Kernel) {
    Shape(k) && ReadyOk(k) && WaitOk(k) && NoneLost(k) && IdleOk(k)
  }

  /** The lock is held exactly while the running thread is in a region or has a system call
      pending, and the running task is fit for what comes next. */
  ghost predicate Inv(m: Machine) {
    && Sound(m.k)
    && m.k.interlock == (if m.mode == Unlocked then 0 else 1)
    && match m.mode
       case Unlocked => m.k.live[m.k.current] && InReady(m.k, m.k.current)
       case Locked(_) => m.k.live[m.k.current] && InReady(m.k, m.k.current)
       case Ending(Leave) => m.k.live[m.k.current] && InReady(m.k, m.k.current)
       case Ending(ExecuteContextSwitch) => m.k.live[m.k.current]
       case Ending(LoadNext) => m.k.started
  }

  /** After `kernel::init`: only the Idle task. */
  ghost predicate Initial(m: Machine) {
    && m.mode == Unlocked
    && Shape(m.k)
    && !m.k.started && m.k.interlock == 0 && m.k.current == IDLE
    && (forall t :: 0 <= t < |m.k.live| ==> (m.k.live[t] <==> t == IDLE))
    && m.k.tasks[IDLE].priority == IDLE_PRIORITY
    && m.k.ready == [EMPTY_RING, EMPTY_RING, EMPTY_RING, TaskRing([IDLE], 0)]
    && (forall i :: 0 <= i < |m.k.waiting| ==> m.k.waiting[i] == None)
  }

  lemma InitialInv(m: Machine)
    requires Initial(m)
    ensures Inv(m)
  {
    assert IDLE in m.k.ready[3].tasks;
  }

  // ---- a task can always be chosen -----------------------------------------

  lemma AlwaysATask(k: Kernel)
    requires Shape(k) && ReadyOk(k) && IdleOk(k)
    ensures CanChoose(k) && CanChoose(MovedOn(k))
    ensures var t := CurrentTask(k).value; k.live[t] && InReady(k, t)
    ensures var t := CurrentTask(MovedOn(k)).value; k.live[t] && InReady(k, t)
  {
    var m := MovedOn(k);
    assert IDLE in k.ready[IDLE_PRIORITY].tasks;
    assert IDLE in m.ready[IDLE_PRIORITY].tasks;
    var p := FirstReady(k.ready);
    assert p < PRIORITIES && CurrentTask(k).Some?;
    var t := CurrentTask(k).value;
    assert t in k.ready[p].tasks;
    assert t < |k.tasks|;
    assert CurrentTask(m).value in k.ready[p].tasks;
  }
}
