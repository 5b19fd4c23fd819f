/** Storing and loading processor contexts, over every run. */
module KernelContexts {
  import opened Slots
  import opened Rings
  import opened ReadyRings
  import opened Handles
  import opened SignalWorld
  import opened WaitConditions
  import opened Scheduler
  import opened KernelMachine
  import opened KernelSafety
  import opened KernelRuns

  /** The stack pointer and callee-saved registers in a task's record. */
  ghost predicate SavedAlike(a: Task, b: Task) {
    a.sp == b.sp && a.context == b.context
  }

  /** A record that the step has just given to a new task. */
  ghost predicate NewlyCreated(k: Kernel, r: Kernel, t: nat) {
    t < |k.live| && t < |r.live| && r.live[t] && !k.live[t]
  }

  /** Every record but `except` keeps its saved state, destroyed ones included; a new task starts
      at the fresh frame of its record. */
  ghost predicate RecordsKept(k: Kernel, r: Kernel, except: Option<nat>) {
    && |r.tasks| == |k.tasks| == |r.live| == |k.live|
    && forall t :: 0 <= t < |k.tasks| && except != Some(t) ==>
         && r.tasks[t].frame == k.tasks[t].frame
         && r.tasks[t].context == k.tasks[t].context
         && r.tasks[t].sp == if NewlyCreated(k, r, t) then k.tasks[t].frame else k.tasks[t].sp
  }

  datatype Cpu = Cpu(sp: Word, registers: Registers)

  ghost predicate SameProcessor(k: Kernel, r: Kernel) {
    r.psp == k.psp && r.registers == k.registers && r.storeAt == k.storeAt
  }

  // ---- what each step does to the records ----------------------------------

  lemma BodyKeepsRecords(k: Kernel, call: Call)
    requires Sound(k) && Legal(k, call)
    ensures var r := Body(k, call).k; RecordsKept(k, r, None) && SameProcessor(k, r) && r.current == k.current
  {
    hide Sound, CreateBody, TerminateBody, SuspendBody, ResumeBody, Park, RingOk, RecordsKept;
    SoundHasShape(k);
    NoRecordTouched(k, k);
    match call {
      case CreateTask(h, p, s) => CreateKeepsRecords(k, h, p, s);
      case Sleep(interval) => ParkKeepsRecords(k, WaitConditions.Sleep(interval, k.now));
      case Wait(conditions) => ParkKeepsRecords(k, conditions.(start := k.now));
      case Terminate(id) => TerminateKeepsRecords(k, id);
      case Suspend(id) => SuspendKeepsRecords(k, id);
      case Resume(id) => ResumeKeepsRecords(k, id);
      case _ => NoRecordTouched(k, Body(k, call).k);
    }
  }

  lemma NoRecordTouched(k: Kernel, r: Kernel)
    requires Sound(k) && r.tasks == k.tasks && r.live == k.live
    ensures RecordsKept(k, r, None)
  {
  }

  lemma TerminateKeepsRecords(k: Kernel, id: nat)
    requires Shape(k) && id < |k.tasks|
    ensures var r := TerminateBody(k, id).k; RecordsKept(k, r, None) && SameProcessor(k, r) && r.current == k.current
  {
    hide Waitable, RingOk;
  }

  lemma SuspendKeepsRecords(k: Kernel, id: nat)
    requires Shape(k) && id < |k.tasks|
    ensures var r := SuspendBody(k, id).k; RecordsKept(k, r, None) && SameProcessor(k, r) && r.current == k.current
  {
    hide Waitable, RingOk;
  }

  lemma ResumeKeepsRecords(k: Kernel, id: nat)
    requires Shape(k) && id < |k.tasks|
    ensures var r := ResumeBody(k, id).k; RecordsKept(k, r, None) && SameProcessor(k, r) && r.current == k.current
  {
    hide Waitable, RingOk;
  }

  lemma CreateKeepsRecords(k: Kernel, hasRoutine: bool, priority: Priority, suspended: bool)
    requires Sound(k)
    ensures var r := CreateBody(k, hasRoutine, priority, suspended).k;
            RecordsKept(k, r, None) && SameProcessor(k, r) && r.current == k.current
  {
    hide Sound, Waitable, RingOk, InReady, Live;
    SoundHasShape(k);
    CreateFailsExactly(k, hasRoutine, priority, suspended);
  }

  lemma ParkKeepsRecords(k: Kernel, conditions: Conditions)
    requires Shape(k) && Waitable(k.world, conditions)
    ensures match Park(k, conditions)
            case None => true
            case Some(r) => RecordsKept(k, r, None) && SameProcessor(k, r) && r.current == k.current
  {
    hide Waitable, RingOk;
  }

  lemma ChooseKeepsRecords(k: Kernel)
    requires Shape(k)
    ensures CanChoose(k) ==>
              var c := Choose(k);
              RecordsKept(k, c, None) && SameProcessor(k, c) && c.live == k.live && c.started == k.started
    ensures CanChoose(MovedOn(k)) ==>
              var c := ChooseNext(k);
              RecordsKept(k, c, None) && SameProcessor(k, c) && c.live == k.live && c.started == k.started
  {
    hide Waitable, RingOk;
  }

  /** A switch away from `from`: its state goes to its record, the next task's comes out of its
      own, also when both are the same task. */
  lemma SwapKeepsCpus(c: Kernel, from: nat, t: nat)
    requires from < |c.tasks| && c.current < |c.tasks| && t < |c.tasks|
    ensures var r := Swapped(c, from);
            && (if t == c.current then Cpu(r.psp, r.registers) else Cpu(r.tasks[t].sp, r.tasks[t].context))
               == (if t == from then Cpu(c.psp, c.registers) else Cpu(c.tasks[t].sp, c.tasks[t].context))
  {
  }

  lemma RecordsKeptAlong(a: Kernel, b: Kernel, c: Kernel, except: Option<nat>)
    requires RecordsKept(a, b, None) && RecordsKept(b, c, except) && a.live == b.live
    ensures RecordsKept(a, c, except)
  {
  }

  lemma SwapStores(c: Kernel, from: nat)
    requires from < |c.tasks| == |c.live| && c.current < |c.tasks|
    ensures var r := Swapped(c, from);
            && RecordsKept(c, r, Some(from)) && r.storeAt == from && r.live == c.live && r.current == c.current
            && |r.tasks| == |c.tasks|
            && r.tasks[from].sp == c.psp && r.tasks[from].context == c.registers
  {
  }

  // ---- storing contexts ----------------------------------------------------

  /** The task a step stores the processor's context into, if it stores one. */
  ghost function StoresInto(m: Machine, step: Step): Option<nat>
    requires Enabled(m, step)
  {
    match step
    case Close => if m.mode.ending == ExecuteContextSwitch then Some(m.k.current) else None
    case TickStep =>
      if m.k.interlock != 0 || Next(m, step).k.current == m.k.current then None else Some(m.k.current)
    case _ => None
  }

  /** The thread that really owns the processor: none before the start, nor after a task has
      ended itself and waits to be replaced. */
  ghost function Owner(m: Machine): Option<nat> {
    if !m.k.started || m.mode == Ending(LoadNext) then None else Some(m.k.current)
  }

  /** In any interleaving of task code, calls, terminations and ticks, a context is stored only
      into the current task, which exists and, once the kernel has started, owns the processor.
      No other record's saved state changes, a destroyed one's neither, but that of a new task,
      which starts at its fresh frame. */
  lemma StoresOnlyIntoLiveOwner(init: Machine, steps: seq<Step>, step: Step)
    requires Initial(init) && IsRun(init, steps) && Enabled(RunFrom(init, steps), step)
    ensures var m := RunFrom(init, steps);
            var r := Next(m, step);
            && RecordsKept(m.k, r.k, StoresInto(m, step))
            && match StoresInto(m, step)
               case None => r.k.storeAt == m.k.storeAt
               case Some(t) =>
                 && t == m.k.current < |m.k.live| == |r.k.tasks| && m.k.live[t]
                 && (m.k.started ==> Owner(m) == Some(t))
                 && r.k.storeAt == t && r.k.tasks[t].sp == m.k.psp && r.k.tasks[t].context == m.k.registers
  {
    InitialInv(init);
    RunKeepsInv(init, steps);
    StepStores(RunFrom(init, steps), step);
  }

  ghost predicate StoresRight(m: Machine, step: Step, r: Kernel)
    requires Enabled(m, step)
  {
    && RecordsKept(m.k, r, StoresInto(m, step))
    && match StoresInto(m, step)
       case None => r.storeAt == m.k.storeAt
       case Some(t) =>
         && t == m.k.current < |m.k.live| == |r.tasks| && m.k.live[t]
         && (m.k.started ==> Owner(m) == Some(t))
         && r.storeAt == t && r.tasks[t].sp == m.k.psp && r.tasks[t].context == m.k.registers
  }

  lemma StepStores(m: Machine, step: Step)
    requires Inv(m) && Enabled(m, step)
    ensures StoresRight(m, step, Next(m, step).k)
  {
    hide ReadyOk, WaitOk, NoneLost, IdleOk, Waitable, RingOk, Choose, Body, Tick, Legal;
    match step {
      case Run => BodyKeepsRecords(m.k, m.mode.call);
      case Close => CloseStores(m);
      case TickStep => TickStores(m);
      case _ =>
    }
  }

  lemma CloseStores(m: Machine)
    requires Inv(m) && Enabled(m, Close)
    ensures StoresRight(m, Close, Next(m, Close).k)
  {
    hide Sound, Choose, CanChoose;
    ChooseKeepsRecords(m.k);
    match m.mode.ending {
      case Leave =>
      case ExecuteContextSwitch => SwitchContextStores(m.k);
      case LoadNext =>
    }
  }

  lemma SwitchContextStores(k: Kernel)
    requires Shape(k) && CanChoose(k)
    ensures var r := SwitchContext(k);
            && RecordsKept(k, r, Some(k.current)) && r.storeAt == k.current && r.live == k.live
            && r.tasks[k.current].sp == k.psp && r.tasks[k.current].context == k.registers
  {
    hide Waitable, RingOk, Choose;
    ChooseKeepsRecords(k);
    SwapStores(Unlock(Choose(k)), k.current);
  }

  lemma TickStores(m: Machine)
    requires Inv(m) && Enabled(m, TickStep)
    ensures StoresRight(m, TickStep, Next(m, TickStep).k)
  {
    hide Sound, Ticking, CanChoose, SwitchIfElapsed, Waitable, RingOk;
    SoundHasShape(m.k);
    if m.k.interlock == 0 {
      TickingOnlyWakes(m.k);
      SwitchStores(Ticking(m.k));
    }
  }

  lemma TickingOnlyWakes(k: Kernel)
    requires Sound(k)
    ensures Shape(Ticking(k)) && RecordsKept(k, Ticking(k), None) && SameProcessor(k, Ticking(k))
    ensures Ticking(k).live == k.live && Ticking(k).current == k.current
  {
    TickingKeepsSound(k);
    hide Ticking, Waitable, RingOk;
  }

  lemma SwitchStores(k: Kernel)
    requires Shape(k) && CanChoose(MovedOn(k))
    ensures var r := SwitchIfElapsed(k);
            && r.live == k.live
            && RecordsKept(k, r, if r.current == k.current then None else Some(k.current))
            && (r.current == k.current ==> SameProcessor(k, r))
            && (r.current != k.current ==> |r.tasks| == |k.tasks| && r.storeAt == k.current
                                           && r.tasks[k.current].sp == k.psp
                                               && r.tasks[k.current].context == k.registers)
  {
    ChoiceKeepsRecords(k);
    hide Shape, CanChoose, MovedOn, ChooseNext, RecordsKept, Swapped;
    var c := ChooseNext(k.(oldTime := k.now));
    SwapStores(c, k.current);
    RecordsKeptAlong(k, c, Swapped(c, k.current), Some(k.current));
  }

  lemma ChoiceKeepsRecords(k: Kernel)
    requires Shape(k) && CanChoose(MovedOn(k))
    ensures var u := k.(oldTime := k.now);
            && Shape(u) && CanChoose(MovedOn(u))
            && var c := ChooseNext(u);
            && RecordsKept(k, c, None) && SameProcessor(k, c) && c.live == k.live
            && RecordsKept(k, k, None)
            && k.current < |k.tasks| == |c.tasks| == |k.live| && c.current < |c.tasks|
  {
    hide Waitable, RingOk;
    ChooseKeepsRecords(k.(oldTime := k.now));
  }

  // ---- before the start ----------------------------------------------------

  /** A tick that does not switch before the start: `main` owns the processor, although the
      Idle task counts as the current one. */
  ghost predicate Quiet(k: Kernel)
    requires Shape(k)
  {
    || k.interlock != 0
    || Elapsed(k.now, k.oldTime) <= SWITCH_INTERVAL
    || forall t :: 0 <= t < |k.tasks| && InReady(k, t) ==> t == IDLE
  }

  ghost predicate CalmStep(m: Machine, step: Step)
    requires Enabled(m, step)
  {
    step == TickStep && !m.k.started ==> Quiet(m.k)
  }

  /** No tick switches before the start. */
  ghost predicate CalmRun(m: Machine, steps: seq<Step>)
    requires IsRun(m, steps)
    decreases |steps|
  {
    steps == [] || (CalmStep(m, steps[0]) && CalmRun(Next(m, steps[0]), steps[1..]))
  }

  /** Until the start nobody waits and the Idle task is current, next and not switched away. */
  ghost predicate IdleUntilStart(m: Machine) {
    && Inv(m)
    && (!m.k.started ==>
          && m.k.current == IDLE && m.mode != Ending(ExecuteContextSwitch)
          && Served(m.k.ready[IDLE_PRIORITY]) == Some(IDLE)
          && forall i :: 0 <= i < |m.k.waiting| ==> m.k.waiting[i] == None)
  }

  lemma InitialIdle(m: Machine)
    requires Initial(m)
    ensures IdleUntilStart(m)
  {
    InitialInv(m);
  }

  lemma {:induction false} NobodyWaits(k: Kernel, n: nat)
    requires Shape(k) && n <= |k.waiting| && forall j :: 0 <= j < |k.waiting| ==> k.waiting[j] == None
    ensures Scan(k, n) == k
  {
    if n > 0 {
      NobodyWaits(k, n - 1);
    }
  }

  lemma ServedStays(r: TaskRing, task: nat, x: nat)
    requires RingOk(r) && Served(r) == Some(x) && x != task
    ensures RingOk(RemoveTask(r, task)) && Served(RemoveTask(r, task)) == Some(x)
  {
    OperationsKeepRing(0, r, task);
  }

  /** The choice of a tick before the start: Idle exactly when no other task is ready. */
  lemma ChoiceBeforeStart(k: Kernel)
    requires Sound(k) && Served(k.ready[IDLE_PRIORITY]) == Some(IDLE)
    ensures CanChoose(MovedOn(k))
    ensures CurrentTask(MovedOn(k)) == Some(IDLE) <==> forall t :: 0 <= t < |k.tasks| && InReady(k, t) ==> t == IDLE
    ensures CurrentTask(MovedOn(k)) == Some(IDLE) ==> MovedOn(k) == k
  {
    AlwaysATask(k);
    var p, next := FirstReady(k.ready), CurrentTask(MovedOn(k)).value;
    assert next in k.ready[p].tasks;
    var ring := k.ready[IDLE_PRIORITY];
    if p == IDLE_PRIORITY {
      if |ring.tasks| == 1 {
        assert MovedOn(k).ready == k.ready;
      } else {
        var other := ring.tasks[Rings.After(ring.at, |ring.tasks|)];
        assert other in ring.tasks && other != IDLE;
      }
    }
  }

  lemma TickingBeforeStart(k: Kernel)
    requires Sound(k) && forall i :: 0 <= i < |k.waiting| ==> k.waiting[i] == None
    ensures Ticking(k) == k.(world := TickTimers(k.world, k.now))
  {
    NobodyWaits(k.(world := TickTimers(k.world, k.now)), |k.waiting|);
  }

  /** What a tick before the start does, when it is quiet and when it is not. */
  lemma TickBeforeStart(m: Machine)
    requires IdleUntilStart(m) && !m.k.started
    ensures Enabled(m, TickStep)
    ensures var r := Next(m, TickStep).k;
            && r.current < |r.tasks| == |m.k.tasks| && r.live == m.k.live
            && (Quiet(m.k) ==>
                  && r.current == IDLE && r.ready == m.k.ready && r.waiting == m.k.waiting
                  && RecordsKept(m.k, r, None) && SameProcessor(m.k, r))
            && (!Quiet(m.k) ==>
                  && r.current != IDLE && r.storeAt == IDLE
                  && r.tasks[IDLE].sp == m.k.psp && r.tasks[IDLE].context == m.k.registers)
  {
    hide Sound, SwitchIfElapsed, Scan, CanChoose, CurrentTask, MovedOn, Waitable, RingOk;
    var k := m.k;
    TickKeepsInv(m);
    SoundHasShape(k);
    SoundHasShape(Tick(k));
    TickingBeforeStart(k);
    if k.interlock == 0 {
      var t := Ticking(k);
      TickingKeepsSound(k);
      ChoiceBeforeStart(t);
      SwitchStores(t);
      assert forall x :: 0 <= x < |k.tasks| ==> InReady(t, x) == InReady(k, x);
      QuietSwitch(t);
    }
  }

  lemma QuietSwitch(t: Kernel)
    requires Sound(t) && t.current == IDLE && CanChoose(MovedOn(t))
    requires CurrentTask(MovedOn(t)) == Some(IDLE) ==> MovedOn(t) == t
    ensures var r := SwitchIfElapsed(t);
            && (r.current == IDLE <==>
                  Elapsed(t.now, t.oldTime) <= SWITCH_INTERVAL || CurrentTask(MovedOn(t)) == Some(IDLE))
            && (r.current == IDLE ==> r.ready == t.ready && r.waiting == t.waiting)
  {
    hide Waitable, RingOk, ReadyOk, WaitOk, NoneLost;
    MovedOnKeepsOldTime(t);
  }

  lemma MovedOnKeepsOldTime(t: Kernel)
    requires Shape(t)
    ensures Shape(t.(oldTime := t.now))
    ensures MovedOn(t.(oldTime := t.now)) == MovedOn(t).(oldTime := t.now)
    ensures CurrentTask(MovedOn(t.(oldTime := t.now))) == CurrentTask(MovedOn(t))
  {
  }

  lemma CreateKeepsIdle(k: Kernel, hasRoutine: bool, priority: Priority, suspended: bool)
    requires Sound(k) && Served(k.ready[IDLE_PRIORITY]) == Some(IDLE)
    ensures var a := CreateBody(k, hasRoutine, priority, suspended);
            && a.k.current == k.current && a.k.waiting == k.waiting && a.k.started == k.started
            && (!k.started ==> a.ending == Leave)
            && Served(a.k.ready[IDLE_PRIORITY]) == Some(IDLE)
  {
    hide Waitable, ReadyOk, WaitOk, NoneLost;
  }

  lemma TerminateKeepsIdle(k: Kernel, id: nat)
    requires Sound(k) && Served(k.ready[IDLE_PRIORITY]) == Some(IDLE) && id < |k.tasks| && id != IDLE
    requires forall i :: 0 <= i < |k.waiting| ==> k.waiting[i] == None
    ensures var a := TerminateBody(k, id);
            && a.k.current == k.current && a.k.started == k.started
            && (!k.started ==> a.ending == Leave)
            && Served(a.k.ready[IDLE_PRIORITY]) == Some(IDLE)
            && forall i :: 0 <= i < |a.k.waiting| ==> a.k.waiting[i] == None
  {
    hide Waitable, ReadyOk, WaitOk, NoneLost;
    ServedStays(k.ready[IDLE_PRIORITY], id, IDLE);
  }

  lemma BodyKeepsIdle(m: Machine)
    requires IdleUntilStart(m) && Enabled(m, Run)
    ensures IdleUntilStart(Next(m, Run))
  {
    hide Sound, CreateBody, TerminateBody, Park, Waitable;
    StepKeepsInv(m, Run);
    if !m.k.started {
      match m.mode.call {
        case CreateTask(h, p, s) => CreateKeepsIdle(m.k, h, p, s);
        case Terminate(id) => TerminateKeepsIdle(m.k, id);
        case _ =>
      }
    } else {
      BodyKeepsStarted(m.k, m.mode.call);
    }
  }

  lemma BodyKeepsStarted(k: Kernel, call: Call)
    requires Shape(k) && Legal(k, call) && k.started
    ensures Body(k, call).k.started
  {
    hide Waitable, RingOk;
  }

  lemma TickKeepsStarted(m: Machine)
    requires Inv(m) && Enabled(m, TickStep)
    ensures Next(m, TickStep).k.started == m.k.started
  {
    if m.k.interlock == 0 {
      TickingKeepsSound(m.k);
      SwitchIfElapsedKeepsSound(Ticking(m.k));
    }
    hide Sound, Ticking, SwitchIfElapsed, CanChoose;
  }

  lemma CloseKeepsStarted(m: Machine)
    requires Inv(m) && Enabled(m, Close)
    ensures Next(m, Close).k.started == m.k.started
  {
    hide Sound, CanChoose, Choose;
    ChooseKeepsRecords(m.k);
  }

  lemma StepKeepsIdle(m: Machine, step: Step)
    requires IdleUntilStart(m) && Enabled(m, step) && CalmStep(m, step)
    ensures IdleUntilStart(Next(m, step))
  {
    hide Sound, CanChoose, Body, Tick, Waitable, RingOk;
    StepKeepsInv(m, step);
    match step {
      case Run => BodyKeepsIdle(m);
      case TickStep =>
        TickKeepsStarted(m);
        if !m.k.started {
          TickBeforeStart(m);
        }
      case Close => CloseKeepsStarted(m);
      case _ =>
    }
  }

  lemma {:induction false} CalmRunKeepsIdle(m: Machine, steps: seq<Step>)
    requires IdleUntilStart(m) && IsRun(m, steps) && CalmRun(m, steps)
    ensures IdleUntilStart(RunFrom(m, steps))
    decreases |steps|
  {
    if steps != [] {
      StepKeepsIdle(m, steps[0]);
      CalmRunKeepsIdle(Next(m, steps[0]), steps[1..]);
    }
  }

  // ---- every task keeps its own processor state ----------------------------

  /** A task's stack pointer and registers: in the processor while it owns it, else in its record. */
  ghost function CpuOf(m: Machine, t: nat): Cpu
    requires t < |m.k.tasks|
  {
    if Owner(m) == Some(t) then Cpu(m.k.psp, m.k.registers)
    else Cpu(m.k.tasks[t].sp, m.k.tasks[t].context)
  }

  /** The intended meaning: only its own code changes a task's state; a new task starts at the
      fresh frame of its record. */
  ghost function Intended(m: Machine, step: Step, own: seq<Cpu>): (r: seq<Cpu>)
    requires Enabled(m, step) && |own| == |m.k.tasks|
    ensures |r| == |own|
  {
    match step
    case Compute(psp, registers) =>
      if Owner(m).Some? then own[m.k.current := Cpu(psp, registers)] else own
    case Run =>
      var after := Next(m, step).k;
      seq(|own|, t requires 0 <= t < |own| =>
        if t < |after.live| && t < |m.k.live| && after.live[t] && !m.k.live[t]
        then Cpu(m.k.tasks[t].frame, m.k.tasks[t].context) else own[t])
    case _ => own
  }

  ghost predicate Faithful(m: Machine, own: seq<Cpu>) {
    && |own| == |m.k.tasks| == |m.k.live|
    && forall t :: 0 <= t < |own| && m.k.live[t] ==> CpuOf(m, t) == own[t]
  }

  lemma TickKeepsCpus(m: Machine, t: nat)
    requires IdleUntilStart(m) && Enabled(m, TickStep) && CalmStep(m, TickStep) && t < |m.k.tasks|
    ensures |Next(m, TickStep).k.tasks| == |m.k.tasks| && Next(m, TickStep).k.live == m.k.live
    ensures CpuOf(Next(m, TickStep), t) == CpuOf(m, t)
  {
    hide Sound, Ticking, CanChoose, SwitchIfElapsed, Waitable, RingOk;
    SoundHasShape(m.k);
    TickKeepsStarted(m);
    if !m.k.started {
      TickBeforeStart(m);
      TickStores(m);
    } else if m.k.interlock == 0 {
      TickingOnlyWakes(m.k);
      TickingStarts(m.k);
      SwitchKeepsCpus(Ticking(m.k), m.mode, t);
    }
  }

  lemma TickingStarts(k: Kernel)
    requires Sound(k)
    ensures Ticking(k).started == k.started && Ticking(k).interlock == k.interlock
  {
    TickingKeepsSound(k);
    hide Ticking;
  }

  lemma SwitchKeepsCpus(k: Kernel, mode: Mode, t: nat)
    requires Shape(k) && CanChoose(MovedOn(k)) && t < |k.tasks| && k.started && mode == Unlocked
    ensures var r := SwitchIfElapsed(k);
            && |r.tasks| == |k.tasks| && r.live == k.live && r.started
            && CpuOf(Machine(r, mode), t) == CpuOf(Machine(k, mode), t)
  {
    hide Waitable, RingOk, ChooseNext;
    var u := k.(oldTime := k.now);
    ChooseKeepsRecords(u);
    SwapKeepsCpus(ChooseNext(u), u.current, t);
  }

  /** A system call changes no task's processor state. */
  ghost predicate CpusKept(k: Kernel, ending: KernelMachine.Ending, r: Kernel) {
    && |r.tasks| == |k.tasks|
    && forall t :: 0 <= t < |k.tasks| ==> CpuOf(Machine(r, Unlocked), t) == CpuOf(Machine(k, Mode.Ending(ending)), t)
  }

  lemma SystemCallKeepsCpus(k: Kernel)
    requires Shape(k) && CanChoose(k) && k.started
    ensures CpusKept(k, ExecuteContextSwitch, SwitchContext(k))
    ensures CpusKept(k, LoadNext, LoadNextTask(k))
  {
    hide CanChoose, SwitchContext, LoadNextTask, CpuOf, Waitable, RingOk;
    SwitchContextKeepsCpus(k, k.current);
    LoadNextTaskKeepsCpus(k, k.current);
    forall t | 0 <= t < |k.tasks|
      ensures CpuOf(Machine(SwitchContext(k), Unlocked), t) == CpuOf(Machine(k, Mode.Ending(ExecuteContextSwitch)), t)
      ensures CpuOf(Machine(LoadNextTask(k), Unlocked), t) == CpuOf(Machine(k, Mode.Ending(LoadNext)), t)
    {
      SwitchContextKeepsCpus(k, t);
      LoadNextTaskKeepsCpus(k, t);
    }
  }

  lemma SwitchContextKeepsCpus(k: Kernel, t: nat)
    requires Shape(k) && CanChoose(k) && k.started && t < |k.tasks|
    ensures var r := SwitchContext(k);
            && |r.tasks| == |k.tasks| && r.live == k.live
            && CpuOf(Machine(r, Unlocked), t) == CpuOf(Machine(k, Ending(ExecuteContextSwitch)), t)
  {
    ChooseKeepsRecords(k);
    hide Shape, CanChoose, Choose;
    SwapKeepsCpus(Unlock(Choose(k)), k.current, t);
  }

  lemma LoadNextTaskKeepsCpus(k: Kernel, t: nat)
    requires Shape(k) && CanChoose(k) && k.started && t < |k.tasks|
    ensures var r := LoadNextTask(k);
            && |r.tasks| == |k.tasks| && r.live == k.live
            && CpuOf(Machine(r, Unlocked), t) == CpuOf(Machine(k, Ending(LoadNext)), t)
  {
    ChooseKeepsRecords(k);
    hide Shape, CanChoose, Choose;
  }

  lemma CloseKeepsCpus(m: Machine, t: nat)
    requires IdleUntilStart(m) && Enabled(m, Close) && t < |m.k.tasks|
    ensures |Next(m, Close).k.tasks| == |m.k.tasks| && Next(m, Close).k.live == m.k.live
    ensures CpuOf(Next(m, Close), t) == CpuOf(m, t)
  {
    hide Sound, CanChoose, SwitchContext, LoadNextTask;
    match m.mode.ending {
      case Leave =>
      case ExecuteContextSwitch => SwitchContextKeepsCpus(m.k, t);
      case LoadNext => LoadNextTaskKeepsCpus(m.k, t);
    }
  }

  lemma SameCpusFaithful(m: Machine, r: Machine, own: seq<Cpu>)
    requires Faithful(m, own) && |r.k.tasks| == |m.k.tasks| && r.k.live == m.k.live
    requires forall t :: 0 <= t < |own| ==> CpuOf(r, t) == CpuOf(m, t)
    ensures Faithful(r, own)
  {
  }

  lemma StepIsFaithful(m: Machine, step: Step, own: seq<Cpu>)
    requires IdleUntilStart(m) && Enabled(m, step) && CalmStep(m, step) && Faithful(m, own)
    ensures Faithful(Next(m, step), Intended(m, step, own))
  {
    match step {
      case Run => RunIsFaithful(m, own);
      case Close =>
        CloseKeepsCpus(m, 0);
        forall t | 0 <= t < |own| ensures CpuOf(Next(m, step), t) == CpuOf(m, t) { CloseKeepsCpus(m, t); }
        SameCpusFaithful(m, Next(m, step), own);
      case TickStep =>
        TickKeepsCpus(m, 0);
        forall t | 0 <= t < |own| ensures CpuOf(Next(m, step), t) == CpuOf(m, t) { TickKeepsCpus(m, t); }
        SameCpusFaithful(m, Next(m, step), own);
      case _ =>
        hide Sound, Shape;
    }
  }

  lemma RunIsFaithful(m: Machine, own: seq<Cpu>)
    requires Inv(m) && Enabled(m, Run) && Faithful(m, own)
    ensures Faithful(Next(m, Run), Intended(m, Run, own))
  {
    BodyKeepsRecords(m.k, m.mode.call);
    hide Sound, Body, Legal, Waitable, RingOk;
  }

  ghost function IntendedRun(m: Machine, steps: seq<Step>, own: seq<Cpu>): seq<Cpu>
    requires IdleUntilStart(m) && IsRun(m, steps) && CalmRun(m, steps) && |own| == |m.k.tasks|
    decreases |steps|
  {
    if steps == [] then own
    else
      StepKeepsIdle(m, steps[0]);
      SameTaskCount(m, steps[0]);
      IntendedRun(Next(m, steps[0]), steps[1..], Intended(m, steps[0], own))
  }

  lemma SameTaskCount(m: Machine, step: Step)
    requires Inv(m) && Enabled(m, step)
    ensures |Next(m, step).k.tasks| == |m.k.tasks|
  {
    StepStores(m, step);
  }

  /** Context switches are invisible: after any run in which no tick switched before the start,
      every existing task has exactly the stack pointer and registers its own code last left, or
      those it was created with, and the task that owns the processor finds them there. */
  lemma {:induction false} EveryTaskKeepsItsCpu(m: Machine, steps: seq<Step>, own: seq<Cpu>)
    requires IdleUntilStart(m) && IsRun(m, steps) && CalmRun(m, steps) && Faithful(m, own)
    ensures var r := RunFrom(m, steps);
            && Faithful(r, IntendedRun(m, steps, own))
            && (Owner(r).Some? ==>
                  r.k.current < |r.k.tasks| && Cpu(r.k.psp, r.k.registers) == IntendedRun(m, steps, own)[r.k.current])
    decreases |steps|
  {
    CalmRunKeepsIdle(m, steps);
    if steps != [] {
      StepKeepsIdle(m, steps[0]);
      StepIsFaithful(m, steps[0], own);
      SameTaskCount(m, steps[0]);
      EveryTaskKeepsItsCpu(Next(m, steps[0]), steps[1..], Intended(m, steps[0], own));
    }
  }

  /** A tick before the start leaves every saved state alone exactly when the lock is held, the
      round-robin interval is not over, or no task but Idle is ready.
      Otherwise it stores the process stack pointer, which no task has set yet, and the registers
      of `main` into the Idle task's record, and makes another task current. */
  lemma PreStartTickExactly(init: Machine, steps: seq<Step>)
    requires Initial(init) && IsRun(init, steps) && CalmRun(init, steps)
    requires !RunFrom(init, steps).k.started
    ensures var m := RunFrom(init, steps);
            && Enabled(m, TickStep)
            && (StoresInto(m, TickStep) == None <==> Quiet(m.k))
            && var k, r := m.k, Next(m, TickStep).k;
            && |r.tasks| == |k.tasks| == |k.live|
            && (Quiet(k) ==> RecordsKept(k, r, None) && SameProcessor(k, r) && r.current == k.current)
            && (!Quiet(k) ==> r.current != k.current == IDLE
                              && r.tasks[IDLE].sp == k.psp && r.tasks[IDLE].context == k.registers)
            && ((forall t :: 0 <= t < |k.tasks| && k.live[t] ==> SavedAlike(r.tasks[t], k.tasks[t])) <==>
                  Quiet(k) || (k.psp == k.tasks[IDLE].sp && k.registers == k.tasks[IDLE].context))
  {
    InitialIdle(init);
    CalmRunKeepsIdle(init, steps);
    var m := RunFrom(init, steps);
    TickBeforeStart(m);
    TickStores(m);
    IdleLives(m.k);
    hide Sound, Tick, Quiet, CanChoose, Waitable, RingOk;
  }

  lemma IdleLives(k: Kernel)
    requires Sound(k)
    ensures Shape(k) && IDLE < |k.live| && k.live[IDLE]
  {
  }
}
