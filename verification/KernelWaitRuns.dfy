/** Waiting over whole runs: a wait ends in one of two ways, and what the task is told is true. */
module KernelWaitRuns {
  import opened Slots
  import opened ReadyRings
  import opened Handles
  import opened SignalWorld
  import opened WaitConditions
  import opened Scheduler
  import opened KernelMachine
  import opened KernelSafety
  import opened KernelRuns
  import opened KernelWaits

  /** A task's answer from its last wait. */
  ghost predicate SameAnswer(k: Kernel, r: Kernel, t: nat) {
    && t < |k.tasks| == |r.tasks|
    && r.tasks[t].result == k.tasks[t].result && r.tasks[t].signalIndex == k.tasks[t].signalIndex
  }

  /** The wait in slot `i` goes on. */
  ghost predicate StillWaits(k: Kernel, r: Kernel, i: nat)
    requires i < |k.waiting| && k.waiting[i].Some?
  {
    var t := k.waiting[i].value.task;
    && |r.waiting| == |k.waiting| && r.waiting[i] == k.waiting[i] && SameAnswer(k, r, t)
  }

  /** A task waits nowhere any more. */
  ghost predicate OffTheWaitList(k: Kernel, r: Kernel, t: nat) {
    |r.tasks| == |k.tasks| && |r.waiting| == |k.waiting| && !WaitsIn(r.waiting, t)
  }

  // ---- the two ways out ----------------------------------------------------

  /** A tick ends the wait in slot `i`. */
  ghost predicate Wakes(m: Machine, step: Step, i: nat)
    requires Shape(m.k) && i < |m.k.waiting| && m.k.waiting[i].Some?
  {
    step == TickStep && m.k.interlock == 0 && TickVerdict(m.k, i).Woken?
  }

  /** A task is suspended or terminated. */
  predicate Withdraws(m: Machine, step: Step, t: nat) {
    step == Run && (m.mode == Locked(Suspend(t)) || m.mode == Locked(Terminate(t)))
  }

  /** Changes only who is current, how tasks are marked, and the processor. */
  ghost predicate OnlyMarks(k: Kernel, r: Kernel)
    requires Shape(k)
  {
    && r.waiting == k.waiting && |r.ready| == PRIORITIES && |r.tasks| == |k.tasks|
    && forall t :: 0 <= t < |k.tasks| ==> SameAnswer(k, r, t) && InReady(r, t) == InReady(k, t)
  }

  lemma MarksAlong(a: Kernel, b: Kernel, c: Kernel)
    requires Shape(a) && Shape(b) && OnlyMarks(a, b) && OnlyMarks(b, c)
    ensures OnlyMarks(a, c)
  {
    hide RingOk, Waitable, InReady, SameAnswer;
    forall t | 0 <= t < |a.tasks| ensures SameAnswer(a, c, t) && InReady(c, t) == InReady(a, t) {
      assert SameAnswer(a, b, t) && InReady(b, t) == InReady(a, t);
      assert SameAnswer(b, c, t) && InReady(c, t) == InReady(b, t);
      SameAnswerAlong(a, b, c, t);
    }
  }

  lemma SameAnswerAlong(a: Kernel, b: Kernel, c: Kernel, t: nat)
    requires SameAnswer(a, b, t) && SameAnswer(b, c, t)
    ensures SameAnswer(a, c, t)
  {
  }

  lemma MarkingOnlyMarks(k: Kernel, t: nat, state: TaskState, current: nat)
    requires Shape(k) && t < |k.tasks|
    ensures OnlyMarks(k, SetState(k, t, state)) && OnlyMarks(k, SetState(k, t, state).(current := current))
  {
    hide RingOk, Waitable;
    forall u | 0 <= u < |k.tasks|
      ensures var r := SetState(k, t, state); SameAnswer(k, r, u) && InReady(r, u) == InReady(k, u)
    {
      assert SetState(k, t, state).tasks[u].priority == k.tasks[u].priority;
    }
    var r, s := SetState(k, t, state), SetState(k, t, state).(current := current);
    assert forall u :: 0 <= u < |k.tasks| ==> InReady(s, u) == InReady(r, u);
  }

  lemma MovingOnlyMarks(k: Kernel)
    requires Shape(k)
    ensures OnlyMarks(k, MovedOn(k))
  {
    hide RingOk, Waitable;
  }

  lemma ChoiceOnlyMarks(k: Kernel)
    requires Shape(k)
    ensures CanChoose(k) ==> OnlyMarks(k, Choose(k))
    ensures CanChoose(MovedOn(k)) ==> OnlyMarks(k, ChooseNext(k))
  {
    hide Waitable, RingOk, OnlyMarks, CurrentTask, MovedOn;
    if CanChoose(k) {
      MarkingOnlyMarks(k, CurrentTask(k).value, Running, CurrentTask(k).value);
    }
    if CanChoose(MovedOn(k)) {
      var m := MovedOn(k);
      var next := CurrentTask(m).value;
      MovingOnlyMarks(k);
      MarkingOnlyMarks(m, k.current, Ready, k.current);
      MarksAlong(k, m, SetState(m, k.current, Ready));
      MarkingOnlyMarks(SetState(m, k.current, Ready), next, Running, next);
      MarksAlong(k, SetState(m, k.current, Ready), ChooseNext(k));
    }
  }

  lemma SwapOnlyMarks(c: Kernel, from: nat)
    requires Shape(c) && from < |c.tasks|
    ensures Shape(Swapped(c, from)) && OnlyMarks(c, Swapped(c, from))
  {
    hide Waitable, RingOk;
  }

  lemma SwitchOnlyMarks(k: Kernel)
    requires Shape(k) && CanChoose(MovedOn(k))
    ensures OnlyMarks(k, SwitchIfElapsed(k))
  {
    hide RingOk, Waitable, OnlyMarks, ChooseNext, Swapped;
    var u := k.(oldTime := k.now);
    ChoiceOnlyMarks(u);
    var c := ChooseNext(u);
    ChoiceInRange(u);
    SwapOnlyMarks(c, u.current);
    MarksAlong(u, c, Swapped(c, u.current));
    NothingMarked(k);
    if Elapsed(k.now, k.oldTime) > SWITCH_INTERVAL {
      SameMarks(k, u, SwitchIfElapsed(k));
    }
  }

  lemma NothingMarked(k: Kernel)
    requires Shape(k)
    ensures OnlyMarks(k, k)
  {
  }

  lemma ChoiceInRange(u: Kernel)
    requires Shape(u) && CanChoose(MovedOn(u))
    ensures |ChooseNext(u).tasks| == |u.tasks|
  {
  }

  lemma SameMarks(k: Kernel, u: Kernel, r: Kernel)
    requires Shape(k) && Shape(u) && u == k.(oldTime := k.now) && OnlyMarks(u, r)
    ensures OnlyMarks(k, r)
  {
    hide RingOk, Waitable;
    forall t | 0 <= t < |k.tasks| ensures SameAnswer(k, r, t) && InReady(r, t) == InReady(k, t) {
      assert SameAnswer(u, r, t) && InReady(r, t) == InReady(u, t);
      assert InReady(u, t) == InReady(k, t);
    }
  }

  lemma CloseOnlyMarks(m: Machine)
    requires Inv(m) && Enabled(m, Close)
    ensures OnlyMarks(m.k, Next(m, Close).k)
  {
    hide RingOk, Waitable, OnlyMarks, Sound, CanChoose, SwitchContext, LoadNextTask;
    SoundHasShape(m.k);
    NothingMarked(m.k);
    var r := Next(m, Close).k;
    if m.mode.ending == Leave {
      UnlockMarks(m.k, m.k, r);
    } else if m.mode.ending == ExecuteContextSwitch {
      SwitchContextOnlyMarks(m.k);
      assert OnlyMarks(m.k, r);
    } else {
      assert m.mode.ending == LoadNext;
      LoadNextTaskOnlyMarks(m.k);
      assert OnlyMarks(m.k, r);
    }
  }

  lemma SwitchContextOnlyMarks(k: Kernel)
    requires Shape(k) && CanChoose(k)
    ensures OnlyMarks(k, SwitchContext(k))
  {
    hide RingOk, Waitable, OnlyMarks, Choose, Swapped;
    ChoiceOnlyMarks(k);
    var c := Choose(k);
    UnlockMarks(k, c, Unlock(c));
    KeepsTasks(k);
    SwapOnlyMarks(Unlock(c), k.current);
    MarksAlong(k, Unlock(c), SwitchContext(k));
  }

  lemma LoadNextTaskOnlyMarks(k: Kernel)
    requires Shape(k) && CanChoose(k)
    ensures OnlyMarks(k, LoadNextTask(k))
  {
    hide RingOk, Waitable, OnlyMarks, Choose;
    ChoiceOnlyMarks(k);
    UnlockMarks(k, Choose(k), LoadNextTask(k));
  }

  lemma KeepsTasks(k: Kernel)
    requires Shape(k) && CanChoose(k)
    ensures |Choose(k).tasks| == |k.tasks| && Shape(Unlock(Choose(k)))
  {
  }

  lemma UnlockMarks(k: Kernel, c: Kernel, r: Kernel)
    requires Shape(k) && OnlyMarks(k, c)
    requires r == c.(interlock := r.interlock, psp := r.psp, registers := r.registers, loadFrom := r.loadFrom)
    ensures OnlyMarks(k, r)
  {
    hide RingOk, Waitable;
    forall t | 0 <= t < |k.tasks| ensures SameAnswer(k, r, t) && InReady(r, t) == InReady(k, t) {
      assert SameAnswer(k, c, t) && InReady(c, t) == InReady(k, t);
      assert r.tasks[t] == c.tasks[t] && r.ready == c.ready;
    }
  }

  // ---- one step ------------------------------------------------------------

  /** The step of the machine on the task in slot `i`, exactly: a tick whose verdict ends the
      wait frees the slot and tells the task; a suspension or termination frees it and tells
      nothing; no other step touches the slot or the task's answer. */
  ghost predicate WaitStep(m: Machine, step: Step, r: Kernel, i: nat)
    requires Shape(m.k) && i < |m.k.waiting| && m.k.waiting[i].Some?
  {
    var t := m.k.waiting[i].value.task;
    if Wakes(m, step, i) then
      var v := TickVerdict(m.k, i);
      OffTheWaitList(m.k, r, t) && t < |r.tasks| && r.tasks[t].result == v.result && r.tasks[t].signalIndex == v.index
    else if Withdraws(m, step, t) then
      OffTheWaitList(m.k, r, t) && SameAnswer(m.k, r, t) && |r.ready| == PRIORITIES && !InReady(r, t)
    else StillWaits(m.k, r, i)
  }

  lemma StepOnWaiter(m: Machine, step: Step, i: nat)
    requires Inv(m) && Enabled(m, step) && i < |m.k.waiting| && m.k.waiting[i].Some?
    ensures WaitStep(m, step, Next(m, step).k, i)
  {
    hide ReadyOk, WaitOk, NoneLost, IdleOk, RingOk, Waitable, TickVerdict, Body, Tick, CanChoose, Legal, InReady;
    match step {
      case Run => BodyOnWaiter(m.k, m.mode.call, i);
      case TickStep => TickOnWaiter(m, i);
      case Close =>
        CloseOnlyMarks(m);
        MarksKeepWaiter(m, step, Next(m, step).k, i);
      case _ =>
        NothingMarked(m.k);
        SameListsSameMarks(m.k, Next(m, step).k);
        MarksKeepWaiter(m, step, Next(m, step).k, i);
    }
  }

  lemma SameListsSameMarks(k: Kernel, r: Kernel)
    requires Shape(k) && r.tasks == k.tasks && r.ready == k.ready && r.waiting == k.waiting
    ensures OnlyMarks(k, r)
  {
    hide RingOk, Waitable;
  }

  lemma MarksKeepWaiter(m: Machine, step: Step, r: Kernel, i: nat)
    requires Inv(m) && i < |m.k.waiting| && m.k.waiting[i].Some? && OnlyMarks(m.k, r)
    requires step != Run && step != TickStep
    ensures WaitStep(m, step, r, i)
  {
    hide ReadyOk, NoneLost, IdleOk, RingOk, Waitable, TickVerdict;
  }

  lemma TickOnWaiter(m: Machine, i: nat)
    requires Inv(m) && Enabled(m, TickStep) && i < |m.k.waiting| && m.k.waiting[i].Some?
    ensures WaitStep(m, TickStep, Next(m, TickStep).k, i)
  {
    hide ReadyOk, NoneLost, IdleOk, RingOk, Waitable, TickVerdict, Ticking, SwitchIfElapsed, CanChoose;
    if m.k.interlock == 0 {
      TickScans(m.k);
      SwitchOnlyMarks(Ticking(m.k));
      if TickVerdict(m.k, i).Woken? {
        ReadyWaitsNowhere(Ticking(m.k), m.k.waiting[i].value.task);
      }
    }
  }

  lemma ReadyWaitsNowhere(k: Kernel, t: nat)
    requires Sound(k) && t < |k.tasks| && InReady(k, t)
    ensures !WaitsIn(k.waiting, t)
  {
    hide ReadyOk, NoneLost, IdleOk, RingOk, Waitable;
  }

  /** What a locked region does to the wait of a task. */
  ghost predicate RegionKeepsWait(k: Kernel, r: Kernel, i: nat, withdrawn: bool)
    requires Shape(k) && i < |k.waiting| && k.waiting[i].Some?
  {
    var t := k.waiting[i].value.task;
    if withdrawn then OffTheWaitList(k, r, t) && SameAnswer(k, r, t) && |r.ready| == PRIORITIES && !InReady(r, t)
    else StillWaits(k, r, i)
  }

  lemma BodyOnWaiter(k: Kernel, call: Call, i: nat)
    requires Sound(k) && Legal(k, call) && InReady(k, k.current) && i < |k.waiting| && k.waiting[i].Some?
    ensures var t := k.waiting[i].value.task;
            RegionKeepsWait(k, Body(k, call).k, i, call == Suspend(t) || call == Terminate(t))
  {
    hide Sound, RingOk, CreateBody, TerminateBody, SuspendBody, ResumeBody, Park, RegionKeepsWait;
    SoundHasShape(k);
    NothingDone(k, i, k);
    match call {
      case CreateTask(h, p, s) => CreateOnWaiter(k, h, p, s, i);
      case Terminate(id) => RemovalOnWaiter(k, id, i);
      case Suspend(id) => RemovalOnWaiter(k, id, i);
      case Resume(id) => ResumeOnWaiter(k, id, i);
      case Sleep(interval) => ParkOnWaiter(k, WaitConditions.Sleep(interval, k.now), i);
      case Wait(conditions) => ParkOnWaiter(k, conditions.(start := k.now), i);
      case Start => NothingDone(k, i, k.(started := true));
      case Other =>
    }
  }

  lemma NothingDone(k: Kernel, i: nat, r: Kernel)
    requires Sound(k) && i < |k.waiting| && k.waiting[i].Some? && r == k.(started := r.started)
    ensures RegionKeepsWait(k, r, i, false)
  {
  }

  lemma CreateOnWaiter(k: Kernel, hasRoutine: bool, priority: Priority, suspended: bool, i: nat)
    requires Sound(k) && i < |k.waiting| && k.waiting[i].Some?
    ensures RegionKeepsWait(k, CreateBody(k, hasRoutine, priority, suspended).k, i, false)
  {
    hide ReadyOk, NoneLost, IdleOk, RingOk, Waitable;
  }

  lemma RemovalOnWaiter(k: Kernel, id: nat, i: nat)
    requires Sound(k) && id < |k.tasks| && i < |k.waiting| && k.waiting[i].Some?
    ensures RegionKeepsWait(k, TerminateBody(k, id).k, i, k.waiting[i].value.task == id)
    ensures RegionKeepsWait(k, SuspendBody(k, id).k, i, k.waiting[i].value.task == id)
  {
    hide ReadyOk, NoneLost, IdleOk, RingOk, Waitable;
  }

  lemma ResumeOnWaiter(k: Kernel, id: nat, i: nat)
    requires Sound(k) && id < |k.tasks| && i < |k.waiting| && k.waiting[i].Some?
    ensures RegionKeepsWait(k, ResumeBody(k, id).k, i, false)
  {
    hide ReadyOk, NoneLost, IdleOk, RingOk, Waitable;
  }

  lemma ParkOnWaiter(k: Kernel, conditions: Conditions, i: nat)
    requires Sound(k) && InReady(k, k.current) && Waitable(k.world, conditions) && i < |k.waiting| && k.waiting[i].Some?
    ensures match Park(k, conditions)
            case None => true
            case Some(r) => RegionKeepsWait(k, r, i, false)
  {
    hide ReadyOk, NoneLost, IdleOk, RingOk;
  }

  // ---- a task that does not wait --------------------------------------------

  /** Only a task itself starts to wait, and only waits are answered. */
  lemma StepOnOther(m: Machine, step: Step, t: nat)
    requires Inv(m) && Enabled(m, step) && t < |m.k.tasks| && !WaitsIn(m.k.waiting, t)
    requires step == Run ==> m.k.current != t
    ensures var r := Next(m, step).k; OffTheWaitList(m.k, r, t) && SameAnswer(m.k, r, t)
  {
    hide ReadyOk, WaitOk, NoneLost, IdleOk, RingOk, Waitable, Body, Tick, CanChoose, Legal, WaitsIn;
    match step {
      case Run => BodyOnOther(m.k, m.mode.call, t);
      case Close => CloseOnlyMarks(m);
      case TickStep =>
        if m.k.interlock == 0 {
          TickOnOther(m, t);
        } else {
          LockedTickOnlyCounts(m);
        }
      case _ =>
    }
  }

  lemma TickOnOther(m: Machine, t: nat)
    requires Inv(m) && Enabled(m, TickStep) && t < |m.k.tasks| && !WaitsIn(m.k.waiting, t) && m.k.interlock == 0
    ensures var r := Next(m, TickStep).k; OffTheWaitList(m.k, r, t) && SameAnswer(m.k, r, t)
  {
    hide ReadyOk, WaitOk, NoneLost, IdleOk, RingOk, Waitable, Ticking, SwitchIfElapsed, CanChoose;
    TickScans(m.k);
    ScanAddsNobody(m.k, Ticking(m.k), t);
    SwitchOnlyMarks(Ticking(m.k));
  }

  lemma ScanAddsNobody(k: Kernel, r: Kernel, t: nat)
    requires Shape(k) && TickScanned(k, r) && !WaitsIn(k.waiting, t)
    ensures !WaitsIn(r.waiting, t)
  {
    hide RingOk, Waitable, TickVerdict, InReady;
    forall i | 0 <= i < |r.waiting| && r.waiting[i].Some? ensures r.waiting[i].value.task != t {
      assert k.waiting[i].Some? && SlotServed(k, r, i, TickVerdict(k, i));
    }
  }

  lemma BodyOnOther(k: Kernel, call: Call, t: nat)
    requires Sound(k) && Legal(k, call) && t < |k.tasks| && !WaitsIn(k.waiting, t) && k.current != t
    ensures var r := Body(k, call).k; OffTheWaitList(k, r, t) && SameAnswer(k, r, t)
  {
    hide ReadyOk, WaitOk, NoneLost, IdleOk, RingOk, TerminateBody, SuspendBody, ResumeBody, Park, CreateBody, WaitsIn;
    match call {
      case CreateTask(h, p, s) => CreateOnOther(k, h, p, s, t);
      case Terminate(id) => RemovalOnOther(k, id, t);
      case Suspend(id) => RemovalOnOther(k, id, t);
      case Resume(id) => RemovalOnOther(k, id, t);
      case Sleep(interval) => ParkOnOther(k, WaitConditions.Sleep(interval, k.now), t);
      case Wait(conditions) => ParkOnOther(k, conditions.(start := k.now), t);
      case _ =>
    }
  }

  lemma CreateOnOther(k: Kernel, hasRoutine: bool, priority: Priority, suspended: bool, t: nat)
    requires Shape(k) && t < |k.tasks| && !WaitsIn(k.waiting, t)
    ensures var r := CreateBody(k, hasRoutine, priority, suspended).k; OffTheWaitList(k, r, t) && SameAnswer(k, r, t)
  {
    hide RingOk, Waitable;
  }

  lemma RemovalOnOther(k: Kernel, id: nat, t: nat)
    requires Shape(k) && id < |k.tasks| && t < |k.tasks| && !WaitsIn(k.waiting, t)
    ensures var r := TerminateBody(k, id).k; OffTheWaitList(k, r, t) && SameAnswer(k, r, t)
    ensures var r := SuspendBody(k, id).k; OffTheWaitList(k, r, t) && SameAnswer(k, r, t)
    ensures var r := ResumeBody(k, id).k; OffTheWaitList(k, r, t) && SameAnswer(k, r, t)
  {
    hide RingOk, Waitable;
  }

  lemma ParkOnOther(k: Kernel, conditions: Conditions, t: nat)
    requires Shape(k) && Waitable(k.world, conditions) && t < |k.tasks| && !WaitsIn(k.waiting, t) && k.current != t
    ensures match Park(k, conditions)
            case None => true
            case Some(r) => OffTheWaitList(k, r, t) && SameAnswer(k, r, t)
  {
    hide RingOk;
  }

  // ---- whole runs ------------------------------------------------------------

  datatype WaitEnd = GoesOn | Answered(v: Verdict) | Withdrawn

  /** How a run ends the wait in slot `i`, if it does. */
  ghost function EndOfWait(m: Machine, steps: seq<Step>, i: nat): (e: WaitEnd)
    requires Inv(m) && IsRun(m, steps) && i < |m.k.waiting| && m.k.waiting[i].Some?
    ensures e.Answered? ==> e.v.Woken?
    decreases |steps|
  {
    if steps == [] then GoesOn
    else if Wakes(m, steps[0], i) then Answered(TickVerdict(m.k, i))
    else if Withdraws(m, steps[0], m.k.waiting[i].value.task) then Withdrawn
    else
      StepKeepsInv(m, steps[0]);
      StepOnWaiter(m, steps[0], i);
      EndOfWait(Next(m, steps[0]), steps[1..], i)
  }

  /** Task `t` makes no call during a run: it does not go on after its wait. */
  ghost predicate MakesNoCall(m: Machine, steps: seq<Step>, t: nat)
    requires IsRun(m, steps)
    decreases |steps|
  {
    steps == [] || ((steps[0] == Run ==> m.k.current != t) && MakesNoCall(Next(m, steps[0]), steps[1..], t))
  }

  lemma {:induction false} AnswerKept(m: Machine, steps: seq<Step>, t: nat)
    requires Inv(m) && IsRun(m, steps) && t < |m.k.tasks| && !WaitsIn(m.k.waiting, t) && MakesNoCall(m, steps, t)
    ensures var r := RunFrom(m, steps).k; OffTheWaitList(m.k, r, t) && SameAnswer(m.k, r, t)
    decreases |steps|
  {
    if steps != [] {
      StepKeepsInv(m, steps[0]);
      StepOnOther(m, steps[0], t);
      AnswerKept(Next(m, steps[0]), steps[1..], t);
    }
  }

  /** A wait tells the truth. Over every run up to the task's next call: while the wait goes on
      the task is not ready; if it was answered, the task holds the result and index of exactly
      the verdict that ended it; and if it was withdrawn by a suspension or termination, the
      task holds whatever it held before it waited. So what a task reads after its wait comes
      from that wait exactly when it was not suspended before it was answered. */
  lemma {:induction false} WaitTellsTheTruth(m: Machine, steps: seq<Step>, i: nat)
    requires Inv(m) && IsRun(m, steps) && i < |m.k.waiting| && m.k.waiting[i].Some?
    requires MakesNoCall(m, steps, m.k.waiting[i].value.task)
    ensures var r := RunFrom(m, steps).k;
            var t := m.k.waiting[i].value.task;
            match EndOfWait(m, steps, i)
            case GoesOn => StillWaits(m.k, r, i) && Shape(r) && !InReady(r, t)
            case Answered(v) =>
              && OffTheWaitList(m.k, r, t) && t < |r.tasks|
              && v.Woken? && r.tasks[t].result == v.result && r.tasks[t].signalIndex == v.index
            case Withdrawn => OffTheWaitList(m.k, r, t) && SameAnswer(m.k, r, t)
    decreases |steps|
  {
    hide ReadyOk, NoneLost, IdleOk, RingOk, Waitable, WaitsIn, Enabled, Next, TickVerdict;
    if steps != [] {
      var n := Next(m, steps[0]);
      StepKeepsInv(m, steps[0]);
      StepOnWaiter(m, steps[0], i);
      var t := m.k.waiting[i].value.task;
      if Wakes(m, steps[0], i) || Withdraws(m, steps[0], t) {
        AnswerKept(n, steps[1..], t);
      } else {
        WaitTellsTheTruth(n, steps[1..], i);
      }
    }
  }

  /** No task is told that its wait failed, although the documentation of a wait on an
      unsupported handle has it so. */
  lemma {:induction false} NoRunReportsFailure(m: Machine, steps: seq<Step>, i: nat)
    requires Inv(m) && IsRun(m, steps) && i < |m.k.waiting| && m.k.waiting[i].Some?
    ensures EndOfWait(m, steps, i).Answered? ==> EndOfWait(m, steps, i).v.result != WaitFailed
    decreases |steps|
  {
    hide ReadyOk, WaitOk, NoneLost, IdleOk, RingOk, WaitsIn, Enabled, Next, Check;
    if steps != [] {
      StepKeepsInv(m, steps[0]);
      StepOnWaiter(m, steps[0], i);
      if Wakes(m, steps[0], i) {
        var w := ScanWorld(TickTimers(m.k.world, m.k.now), m.k.waiting, m.k.now, i);
        WaitNeverReportsFailure(w, m.k.waiting[i].value.conditions, m.k.now);
      } else if !Withdraws(m, steps[0], m.k.waiting[i].value.task) {
        NoRunReportsFailure(Next(m, steps[0]), steps[1..], i);
      }
    }
  }

  ghost predicate NeverWithdrawn(m: Machine, steps: seq<Step>, t: nat)
    requires IsRun(m, steps)
    decreases |steps|
  {
    steps == [] || (!Withdraws(m, steps[0], t) && NeverWithdrawn(Next(m, steps[0]), steps[1..], t))
  }

  lemma UnsupportedNotWoken(m: Machine, step: Step, i: nat, k: nat)
    requires Inv(m) && Enabled(m, step) && i < |m.k.waiting| && m.k.waiting[i].Some?
    requires var c := m.k.waiting[i].value.conditions; LooksAt(c, k) && !Supported(c.signals[k]) && c.waitForever
    ensures !Wakes(m, step, i)
  {
    var w := ScanWorld(TickTimers(m.k.world, m.k.now), m.k.waiting, m.k.now, i);
    UnsupportedWaitExactly(w, m.k.waiting[i].value.conditions, m.k.now, k);
    hide ReadyOk, WaitOk, NoneLost, IdleOk, RingOk, Check;
  }

  /** A task that waits without a time limit for a handle of an unsupported type waits for good:
      over every run that does not suspend or terminate it, its slot stays and it never becomes
      ready. */
  lemma {:induction false} UnsupportedWaitNeverEnds(m: Machine, steps: seq<Step>, i: nat, k: nat)
    requires Inv(m) && IsRun(m, steps) && i < |m.k.waiting| && m.k.waiting[i].Some?
    requires var c := m.k.waiting[i].value.conditions; LooksAt(c, k) && !Supported(c.signals[k]) && c.waitForever
    requires NeverWithdrawn(m, steps, m.k.waiting[i].value.task)
    ensures var r := RunFrom(m, steps).k;
            StillWaits(m.k, r, i) && Shape(r) && !InReady(r, m.k.waiting[i].value.task)
    decreases |steps|
  {
    hide ReadyOk, NoneLost, IdleOk, RingOk, Waitable, WaitsIn, Enabled, Next, TickVerdict;
    if steps != [] {
      StepKeepsInv(m, steps[0]);
      UnsupportedNotWoken(m, steps[0], i, k);
      StepOnWaiter(m, steps[0], i);
      UnsupportedWaitNeverEnds(Next(m, steps[0]), steps[1..], i, k);
    }
  }

  /** With a time limit, such a wait ends only by the limit or by being withdrawn. */
  lemma {:induction false} UnsupportedWaitTimesOut(m: Machine, steps: seq<Step>, i: nat, k: nat)
    requires Inv(m) && IsRun(m, steps) && i < |m.k.waiting| && m.k.waiting[i].Some?
    requires var c := m.k.waiting[i].value.conditions; LooksAt(c, k) && !Supported(c.signals[k])
    ensures match EndOfWait(m, steps, i)
            case Answered(v) => v.result == TimeoutOccurred && !m.k.waiting[i].value.conditions.waitForever
            case _ => true
    decreases |steps|
  {
    hide ReadyOk, WaitOk, NoneLost, IdleOk, RingOk, WaitsIn, Enabled, Next, Check;
    if steps != [] {
      StepKeepsInv(m, steps[0]);
      StepOnWaiter(m, steps[0], i);
      if Wakes(m, steps[0], i) {
        var w := ScanWorld(TickTimers(m.k.world, m.k.now), m.k.waiting, m.k.now, i);
        UnsupportedWaitExactly(w, m.k.waiting[i].value.conditions, m.k.now, k);
      } else if !Withdraws(m, steps[0], m.k.waiting[i].value.task) {
        UnsupportedWaitTimesOut(Next(m, steps[0]), steps[1..], i, k);
      }
    }
  }

  /** Suspending a waiting task and resuming it makes it ready with the answer of an earlier
      wait: nothing tells it that this one did not end. */
  lemma SuspendedWaitReturnsOldAnswer(k: Kernel, i: nat)
    requires Sound(k) && i < |k.waiting| && k.waiting[i].Some?
    requires k.started && InReady(k, k.current)
    ensures var t := k.waiting[i].value.task;
            var s := SuspendBody(k, t).k;
            && Shape(s) && t < |s.tasks|
            && var r := ResumeBody(s, t).k;
            InReady(r, t) && OffTheWaitList(k, r, t) && SameAnswer(k, r, t) && r.world == k.world
  {
    var t := k.waiting[i].value.task;
    var s := SuspendBody(k, t).k;
    RemovalOnWaiter(k, t, i);
    SuspendKeepsReady(k, t);
    ReadyListHasRoom(s, t);
    RemovalOnOther(s, t, t);
    hide ReadyOk, WaitOk, NoneLost, IdleOk, RingOk, Waitable;
  }

  // ---- what ends a wait on objects -------------------------------------------------

  /** A step that ends a wait on objects: a tick that finds the limit passed or every object it
      needs signaled at its turn, or a suspension or termination. */
  ghost predicate EndsWait(m: Machine, step: Step, i: nat)
    requires Shape(m.k) && i < |m.k.waiting| && m.k.waiting[i].Some? && m.k.waiting[i].value.conditions.WaitForObj?
  {
    var item := m.k.waiting[i].value;
    WaitableAtTurn(m.k, i);
    TickVerdictExactly(m.k, i);
    || Withdraws(m, step, item.task)
    || (step == TickStep && m.k.interlock == 0
        && (Due(item.conditions, m.k.now)
            || forall h :: h in Needed(item.conditions) ==> Signaled(WorldAtTurn(m.k, i), h)))
  }

  ghost predicate NothingEndsWait(m: Machine, steps: seq<Step>, i: nat)
    requires Inv(m) && IsRun(m, steps) && i < |m.k.waiting| && m.k.waiting[i].Some?
    requires m.k.waiting[i].value.conditions.WaitForObj?
    decreases |steps|
  {
    steps == [] ||
    (!EndsWait(m, steps[0], i) &&
     (EndIsVerdict(m, steps[0], i);
      StepKeepsInv(m, steps[0]);
      StepOnWaiter(m, steps[0], i);
      NothingEndsWait(Next(m, steps[0]), steps[1..], i)))
  }

  lemma EndIsVerdict(m: Machine, step: Step, i: nat)
    requires Shape(m.k) && i < |m.k.waiting| && m.k.waiting[i].Some? && m.k.waiting[i].value.conditions.WaitForObj?
    ensures EndsWait(m, step, i) <==> Wakes(m, step, i) || Withdraws(m, step, m.k.waiting[i].value.task)
    ensures Wakes(m, step, i) ==>
              var v := TickVerdict(m.k, i);
              var due := Due(m.k.waiting[i].value.conditions, m.k.now);
              v.index == 0 && v.result == if due then TimeoutOccurred else ObjectSet
  {
    hide RingOk, WorldAtTurn, TickVerdict, Signaled, TakenFrom, Alive;
    WaitableAtTurn(m.k, i);
    TickVerdictExactly(m.k, i);
  }

  /** Over every run a wait on objects, be it on all of its handles or on any of them, is answered
      with index 0 or a timeout, and goes on exactly as long as its limit has not passed, some
      object it needs is not signaled at its turn and its task is not suspended or terminated. A
      wait on all needs all of its handles; a wait on any heeds the first only, whatever the
      others do. */
  lemma {:induction false} WaitEndsExactly(m: Machine, steps: seq<Step>, i: nat)
    requires Inv(m) && IsRun(m, steps) && i < |m.k.waiting| && m.k.waiting[i].Some?
    requires m.k.waiting[i].value.conditions.WaitForObj?
    ensures EndOfWait(m, steps, i).GoesOn? <==> NothingEndsWait(m, steps, i)
    ensures match EndOfWait(m, steps, i)
            case Answered(v) =>
              && v.index == 0
              && (v.result != ObjectSet ==>
                    v.result == TimeoutOccurred && !m.k.waiting[i].value.conditions.waitForever)
            case _ => true
    decreases |steps|
  {
    hide ReadyOk, WaitOk, NoneLost, IdleOk, RingOk, WaitsIn, Enabled, Next, TickVerdict, Waitable, EndsWait;
    if steps != [] {
      EndIsVerdict(m, steps[0], i);
      StepKeepsInv(m, steps[0]);
      StepOnWaiter(m, steps[0], i);
      if !EndsWait(m, steps[0], i) {
        WaitEndsExactly(Next(m, steps[0]), steps[1..], i);
      }
    }
  }

  predicate AnyWait(c: Conditions) {
    c.WaitForObj? && !c.waitForAll
  }

  /** What ends a wait on any handle, said of its first handle. */
  lemma AnyWaitHeedsFirstHandleOnly(m: Machine, step: Step, i: nat)
    requires Shape(m.k) && i < |m.k.waiting| && m.k.waiting[i].Some? && AnyWait(m.k.waiting[i].value.conditions)
    ensures var item := m.k.waiting[i].value;
            var w := WorldAtTurn(m.k, i);
            && item.conditions.signals != [] && Alive(w, item.conditions.signals[0])
            && (EndsWait(m, step, i) <==>
                  || Withdraws(m, step, item.task)
                  || (step == TickStep && m.k.interlock == 0
                      && (Due(item.conditions, m.k.now) || Signaled(w, item.conditions.signals[0]))))
  {
    hide RingOk, WorldAtTurn, Signaled, TickVerdict, Withdraws;
    WaitableAtTurn(m.k, i);
    var c := m.k.waiting[i].value.conditions;
    assert c.signals[0] in c.signals && c.signals[0] in Needed(c);
  }
}
