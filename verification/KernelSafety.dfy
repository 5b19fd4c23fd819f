/** What every step of the kernel machine keeps, and what follows over whole runs. */
module KernelSafety {
  import opened Slots
  import opened ReadyRings
  import opened Handles
  import opened SignalWorld
  import opened WaitConditions
  import opened Scheduler
  import opened KernelMachine

  lemma SoundHasShape(k: Kernel)
    requires Sound(k)
    ensures Shape(k)
  {
  }

  // ---- each region keeps the task sets sound -------------------------------

  lemma CreateKeepsReady(k: Kernel, hasRoutine: bool, priority: Priority, suspended: bool)
    requires Sound(k)
    ensures var r := CreateBody(k, hasRoutine, priority, suspended).k; ReadyOk(r) && IdleOk(r)
  {
    hide WaitOk, NoneLost;
  }

  lemma CreateKeepsWaits(k: Kernel, hasRoutine: bool, priority: Priority, suspended: bool)
    requires Sound(k)
    ensures WaitOk(CreateBody(k, hasRoutine, priority, suspended).k)
  {
    hide NoneLost;
  }

  lemma CreateKeepsAll(k: Kernel, hasRoutine: bool, priority: Priority, suspended: bool)
    requires Sound(k)
    ensures NoneLost(CreateBody(k, hasRoutine, priority, suspended).k)
  {
  }

  lemma CreateKeepsSound(k: Kernel, hasRoutine: bool, priority: Priority, suspended: bool)
    requires Sound(k)
    ensures Sound(CreateBody(k, hasRoutine, priority, suspended).k)
  {
    CreateKeepsReady(k, hasRoutine, priority, suspended);
    CreateKeepsWaits(k, hasRoutine, priority, suspended);
    CreateKeepsAll(k, hasRoutine, priority, suspended);
    hide ReadyOk, WaitOk, NoneLost, IdleOk;
  }

  lemma TerminateKeepsReady(k: Kernel, id: nat)
    requires Sound(k) && Legal(k, Terminate(id))
    ensures var r := TerminateBody(k, id).k; ReadyOk(r) && IdleOk(r)
  {
    hide WaitOk, NoneLost;
  }

  lemma TerminateKeepsWaits(k: Kernel, id: nat)
    requires Sound(k) && Legal(k, Terminate(id))
    ensures WaitOk(TerminateBody(k, id).k)
  {
    hide NoneLost;
  }

  lemma TerminateKeepsAll(k: Kernel, id: nat)
    requires Sound(k) && Legal(k, Terminate(id))
    ensures NoneLost(TerminateBody(k, id).k)
  {
  }

  lemma TerminateKeepsSound(k: Kernel, id: nat)
    requires Sound(k) && Legal(k, Terminate(id))
    ensures Sound(TerminateBody(k, id).k)
  {
    TerminateKeepsReady(k, id);
    TerminateKeepsWaits(k, id);
    TerminateKeepsAll(k, id);
    hide ReadyOk, WaitOk, NoneLost, IdleOk;
  }

  lemma SuspendKeepsReady(k: Kernel, id: nat)
    requires Sound(k) && Legal(k, Suspend(id))
    ensures var r := SuspendBody(k, id).k; ReadyOk(r) && IdleOk(r)
  {
    hide WaitOk, NoneLost;
  }

  lemma SuspendKeepsWaits(k: Kernel, id: nat)
    requires Sound(k) && Legal(k, Suspend(id))
    ensures WaitOk(SuspendBody(k, id).k)
  {
    hide NoneLost;
  }

  lemma SuspendKeepsAll(k: Kernel, id: nat)
    requires Sound(k) && Legal(k, Suspend(id))
    ensures NoneLost(SuspendBody(k, id).k)
  {
  }

  lemma SuspendKeepsSound(k: Kernel, id: nat)
    requires Sound(k) && Legal(k, Suspend(id))
    ensures Sound(SuspendBody(k, id).k)
  {
    SuspendKeepsReady(k, id);
    SuspendKeepsWaits(k, id);
    SuspendKeepsAll(k, id);
    hide ReadyOk, WaitOk, NoneLost, IdleOk;
  }

  lemma ResumeKeepsReady(k: Kernel, id: nat)
    requires Sound(k) && Legal(k, Resume(id)) && InReady(k, k.current)
    ensures var r := ResumeBody(k, id).k; ReadyOk(r) && IdleOk(r)
  {
    hide WaitOk, NoneLost;
  }

  lemma ResumeKeepsWaits(k: Kernel, id: nat)
    requires Sound(k) && Legal(k, Resume(id)) && InReady(k, k.current)
    ensures WaitOk(ResumeBody(k, id).k)
  {
    hide NoneLost;
  }

  lemma ResumeKeepsAll(k: Kernel, id: nat)
    requires Sound(k) && Legal(k, Resume(id)) && InReady(k, k.current)
    ensures NoneLost(ResumeBody(k, id).k)
  {
  }

  lemma ResumeKeepsSound(k: Kernel, id: nat)
    requires Sound(k) && Legal(k, Resume(id)) && InReady(k, k.current)
    ensures Sound(ResumeBody(k, id).k)
  {
    ResumeKeepsReady(k, id);
    ResumeKeepsWaits(k, id);
    ResumeKeepsAll(k, id);
    hide ReadyOk, WaitOk, NoneLost, IdleOk;
  }

  lemma WaitsInAfterPut(waiting: seq<Option<WaitItem>>, i: nat, item: WaitItem, t: nat)
    requires i < |waiting| && waiting[i] == None
    ensures WaitsIn(waiting[i := Some(item)], t) <==> WaitsIn(waiting, t) || t == item.task
  {
    var r := waiting[i := Some(item)];
    assert r[i].value.task == item.task;
    if WaitsIn(waiting, t) {
      var j :| 0 <= j < |waiting| && waiting[j].Some? && waiting[j].value.task == t;
      assert r[j] == waiting[j];
    }
  }

  lemma WaitsInAfterClear(waiting: seq<Option<WaitItem>>, i: nat, t: nat)
    requires i < |waiting| && waiting[i].Some? && waiting[i].value.task != t
    ensures WaitsIn(waiting[i := None], t) <==> WaitsIn(waiting, t)
  {
    var r := waiting[i := None];
    if WaitsIn(waiting, t) {
      var j :| 0 <= j < |waiting| && waiting[j].Some? && waiting[j].value.task == t;
      assert r[j] == waiting[j];
    }
  }

  lemma ParkKeepsLists(k: Kernel, conditions: Conditions)
    requires Sound(k) && InReady(k, k.current) && k.current != IDLE && Waitable(k.world, conditions)
    ensures match Park(k, conditions)
            case None => true
            case Some(r) => ReadyOk(r) && IdleOk(r) && WaitOk(r)
  {
    hide NoneLost;
  }

  lemma ParkKeepsSound(k: Kernel, conditions: Conditions)
    requires Sound(k) && InReady(k, k.current) && k.current != IDLE && Waitable(k.world, conditions)
    ensures Park(k, conditions).Some? ==> Sound(Park(k, conditions).value)
  {
    ParkKeepsLists(k, conditions);
    hide ReadyOk, WaitOk, IdleOk;
    var p := Park(k, conditions);
    if p.Some? {
      var r := p.value;
      var item := WaitItem(k.current, conditions);
      var i :| 0 <= i < |k.waiting| && k.waiting[i] == None && r.waiting == k.waiting[i := Some(item)];
      forall t | 0 <= t < |k.tasks| && k.live[t] && !InReady(r, t) && !WaitsIn(r.waiting, t)
        ensures r.tasks[t].state == Suspended
      {
        WaitsInAfterPut(k.waiting, i, item, t);
      }
    }
  }

  lemma CheckSlotKeepsLists(k: Kernel, i: nat)
    requires Sound(k) && i < |k.waiting|
    ensures var r := CheckSlot(k, i); ReadyOk(r) && IdleOk(r) && WaitOk(r)
  {
    hide NoneLost, Waitable;
  }

  lemma CheckSlotKeepsSound(k: Kernel, i: nat)
    requires Sound(k) && i < |k.waiting|
    ensures Sound(CheckSlot(k, i))
  {
    CheckSlotKeepsLists(k, i);
    var r := CheckSlot(k, i);
    forall t | 0 <= t < |k.tasks| && k.live[t] && !InReady(r, t) && !WaitsIn(r.waiting, t)
      ensures r.tasks[t].state == Suspended
    {
      hide ReadyOk, WaitOk, IdleOk, Waitable;
      if k.waiting[i].Some? && k.waiting[i].value.task != t {
        WaitsInAfterClear(k.waiting, i, t);
      }
    }
  }

  /** What waking tasks leaves alone: the pool's flags, the current task, the lock, the
      processor, every task's saved state and priority; and no task stops being ready. */
  ghost predicate OnlyWakes(k: Kernel, r: Kernel)
    requires Shape(k) && Shape(r)
  {
    && r == k.(tasks := r.tasks, ready := r.ready, waiting := r.waiting, world := r.world)
    && |r.tasks| == |k.tasks|
    && forall t :: 0 <= t < |k.tasks| ==>
         && r.tasks[t] == k.tasks[t].(state := r.tasks[t].state, result := r.tasks[t].result,
                                      signalIndex := r.tasks[t].signalIndex)
         && (InReady(k, t) ==> InReady(r, t))
  }

  lemma CheckSlotOnlyWakes(k: Kernel, i: nat)
    requires Shape(k) && i < |k.waiting|
    ensures OnlyWakes(k, CheckSlot(k, i))
  {
  }

  lemma OnlyWakesAlong(a: Kernel, b: Kernel, c: Kernel)
    requires Shape(a) && Shape(b) && Shape(c) && OnlyWakes(a, b) && OnlyWakes(b, c)
    ensures OnlyWakes(a, c)
  {
  }

  /** Waking the tasks whose wait is over keeps the task sets sound. */
  lemma {:induction false} ScanKeepsSound(k: Kernel, n: nat)
    requires Sound(k) && n <= |k.waiting|
    ensures Sound(Scan(k, n)) && OnlyWakes(k, Scan(k, n))
  {
    hide ReadyOk, WaitOk, NoneLost, IdleOk, Waitable, RingOk, OnlyWakes, CheckSlot;
    if n == 0 {
      NobodyWakes(k);
    } else {
      var s := Scan(k, n - 1);
      ScanKeepsSound(k, n - 1);
      CheckSlotKeepsSound(s, n - 1);
      CheckSlotOnlyWakes(s, n - 1);
      OnlyWakesAlong(k, s, CheckSlot(s, n - 1));
    }
  }

  lemma NobodyWakes(k: Kernel)
    requires Shape(k)
    ensures OnlyWakes(k, k)
  {
  }

  lemma TickingKeepsSound(k: Kernel)
    requires Sound(k)
    ensures Sound(Ticking(k)) && OnlyWakes(k, Ticking(k))
  {
    var c := k.(world := TickTimers(k.world, k.now));
    assert Sound(c);
    ScanKeepsSound(c, |c.waiting|);
    OnlyWakesAlong(k, c, Scan(c, |c.waiting|));
  }

  // ---- the handlers ----------------------------------------------------------

  lemma ChooseKeepsSound(k: Kernel)
    requires Sound(k)
    ensures CanChoose(k) && CanChoose(MovedOn(k))
    ensures var r := Choose(k); Sound(r) && r.live[r.current] && InReady(r, r.current)
  {
    AlwaysATask(k);
    StateOfReadyTask(k, CurrentTask(k).value, Running);
  }

  lemma ChooseNextKeepsSound(k: Kernel)
    requires Sound(k) && InReady(k, k.current)
    ensures CanChoose(MovedOn(k))
    ensures var r := ChooseNext(k); Sound(r) && r.live[r.current] && InReady(r, r.current)
  {
    AlwaysATask(k);
    var m := MovedOn(k);
    MovedOnKeepsSound(k);
    var was, next := k.current, CurrentTask(m).value;
    StateOfReadyTask(m, was, Ready);
    StateOfReadyTask(SetState(m, was, Ready), next, Running);
  }

  lemma MovedOnKeepsSound(k: Kernel)
    requires Sound(k)
    ensures Sound(MovedOn(k))
    ensures forall t :: 0 <= t < |k.tasks| ==> InReady(k, t) == InReady(MovedOn(k), t)
  {
  }

  /** The state of a ready task is free to change, and so is who is current. */
  lemma StateOfReadyTask(k: Kernel, t: nat, state: TaskState)
    requires Sound(k) && t < |k.tasks| && InReady(k, t)
    ensures Sound(SetState(k, t, state)) && Sound(SetState(k, t, state).(current := t))
    ensures forall u :: 0 <= u < |k.tasks| ==> InReady(k, u) == InReady(SetState(k, t, state), u)
  {
  }

  /** Storing and loading contexts changes stack pointers and registers only. */
  lemma MachineStateIsApart(k: Kernel, r: Kernel)
    requires Sound(k)
    requires r == k.(tasks := r.tasks, psp := r.psp, registers := r.registers, storeAt := r.storeAt,
                     loadFrom := r.loadFrom, interlock := r.interlock, now := r.now, oldTime := r.oldTime)
    requires |r.tasks| == |k.tasks| && forall t :: 0 <= t < |k.tasks| ==>
               r.tasks[t] == k.tasks[t].(sp := r.tasks[t].sp, context := r.tasks[t].context)
    ensures Sound(r)
    ensures forall t :: 0 <= t < |k.tasks| ==> InReady(k, t) == InReady(r, t)
  {
  }

  lemma HandlersKeepInv(k: Kernel)
    requires Sound(k) && k.interlock == 1
    ensures CanChoose(k)
    ensures Inv(Machine(SwitchContext(k), Unlocked))
    ensures Inv(Machine(LoadNextTask(k), Unlocked))
  {
    ChooseKeepsSound(k);
    MachineStateIsApart(Choose(k), SwitchContext(k));
    MachineStateIsApart(Choose(k), LoadNextTask(k));
  }

  lemma TickKeepsInv(m: Machine)
    requires Inv(m)
    ensures m.k.interlock == 0 ==> CanChoose(MovedOn(Ticking(m.k)))
    ensures Inv(m.(k := Tick(m.k)))
  {
    var k := m.k;
    if k.interlock == 0 {
      TickingKeepsSound(k);
      AlwaysATask(Ticking(k));
      SwitchIfElapsedKeepsSound(Ticking(k));
    }
    hide ReadyOk, WaitOk, NoneLost, IdleOk, SwitchIfElapsed, Ticking;
    var r := if k.interlock != 0 then k else SwitchIfElapsed(Ticking(k));
    MachineStateIsApart(r, r.(now := Incremented(r.now)));
  }

  lemma SwitchIfElapsedKeepsSound(t: Kernel)
    requires Sound(t) && t.live[t.current] && InReady(t, t.current)
    ensures CanChoose(MovedOn(t))
    ensures var r := SwitchIfElapsed(t);
            && Sound(r) && r.live[r.current] && InReady(r, r.current)
            && r.interlock == t.interlock && r.started == t.started
  {
    hide ReadyOk, WaitOk, NoneLost, IdleOk, ChooseNext, Waitable, RingOk;
    AlwaysATask(t);
    var u := t.(oldTime := t.now);
    MachineStateIsApart(t, u);
    ChooseNextKeepsSound(u);
    ChooseNextKeepsLock(u);
    var c := ChooseNext(u);
    MachineStateIsApart(c, Swapped(c, u.current));
  }

  lemma ChooseNextKeepsLock(u: Kernel)
    requires Shape(u) && CanChoose(MovedOn(u))
    ensures var c := ChooseNext(u); c.interlock == u.interlock && c.started == u.started && |c.tasks| == |u.tasks|
  {
  }

  lemma BodyKeepsSound(k: Kernel, call: Call)
    requires Sound(k) && InReady(k, k.current) && Legal(k, call)
    ensures Sound(Body(k, call).k)
  {
    match call {
      case Start =>
      case CreateTask(hasRoutine, priority, suspended) => CreateKeepsSound(k, hasRoutine, priority, suspended);
      case Terminate(id) => TerminateKeepsSound(k, id);
      case Suspend(id) => SuspendKeepsSound(k, id);
      case Resume(id) => ResumeKeepsSound(k, id);
      case Sleep(interval) => ParkKeepsSound(k, WaitConditions.Sleep(interval, k.now));
      case Wait(conditions) => ParkKeepsSound(k, conditions.(start := k.now));
      case Other =>
    }
  }

  ghost predicate EndsFit(before: Kernel, a: After)
    requires Shape(before) && Shape(a.k)
  {
    && a.k.interlock == before.interlock
    && (before.started ==> a.k.started)
    && match a.ending
       case Leave => a.k.live[a.k.current] && InReady(a.k, a.k.current)
       case ExecuteContextSwitch => a.k.live[a.k.current]
       case LoadNext => a.k.started
  }

  lemma CreateEndsFit(k: Kernel, hasRoutine: bool, priority: Priority, suspended: bool)
    requires Sound(k) && k.live[k.current] && InReady(k, k.current)
             && Legal(k, CreateTask(hasRoutine, priority, suspended))
    ensures EndsFit(k, CreateBody(k, hasRoutine, priority, suspended))
  {
    hide ReadyOk, WaitOk, NoneLost, Waitable;
  }

  lemma TerminateEndsFit(k: Kernel, id: nat)
    requires Sound(k) && k.live[k.current] && InReady(k, k.current) && Legal(k, Terminate(id))
    ensures EndsFit(k, TerminateBody(k, id))
  {
    hide ReadyOk, WaitOk, NoneLost, Waitable;
  }

  lemma SuspendEndsFit(k: Kernel, id: nat)
    requires Sound(k) && k.live[k.current] && InReady(k, k.current) && Legal(k, Suspend(id))
    ensures EndsFit(k, SuspendBody(k, id))
  {
    hide ReadyOk, WaitOk, NoneLost, Waitable;
  }

  lemma ResumeEndsFit(k: Kernel, id: nat)
    requires Sound(k) && k.live[k.current] && InReady(k, k.current) && Legal(k, Resume(id))
    ensures EndsFit(k, ResumeBody(k, id))
  {
    hide ReadyOk, WaitOk, NoneLost, Waitable;
  }

  lemma BodyEndsFit(k: Kernel, call: Call)
    requires Sound(k) && k.live[k.current] && InReady(k, k.current) && Legal(k, call)
    ensures EndsFit(k, Body(k, call))
  {
    match call {
      case CreateTask(hasRoutine, priority, suspended) => CreateEndsFit(k, hasRoutine, priority, suspended);
      case Terminate(id) => TerminateEndsFit(k, id);
      case Suspend(id) => SuspendEndsFit(k, id);
      case Resume(id) => ResumeEndsFit(k, id);
      case _ =>
        hide ReadyOk, WaitOk, NoneLost, Waitable, RemoveReady;
    }
  }

  lemma BodyKeepsInv(m: Machine)
    requires Inv(m) && m.mode.Locked? && Legal(m.k, m.mode.call)
    ensures var a := Body(m.k, m.mode.call); Inv(Machine(a.k, Ending(a.ending)))
  {
    BodyKeepsSound(m.k, m.mode.call);
    BodyEndsFit(m.k, m.mode.call);
    hide ReadyOk, WaitOk, NoneLost, IdleOk, Body, Legal;
  }

  lemma StepKeepsInv(m: Machine, step: Step)
    requires Inv(m) && Enabled(m, step)
    ensures Inv(Next(m, step))
  {
    match step {
      case Enter(call) => MachineStateIsApart(m.k, Lock(m.k));
      case Run => BodyKeepsInv(m);
      case Close =>
        if m.mode.ending == Leave {
          MachineStateIsApart(m.k, Unlock(m.k));
        } else {
          HandlersKeepInv(m.k);
        }
      case TickStep => TickKeepsInv(m);
      case Compute(psp, registers) => MachineStateIsApart(m.k, m.k.(psp := psp, registers := registers));
      case Outside(world) => assert Sound(m.k.(world := world));
    }
  }
}
