/** Who runs: priorities after system calls and ticks, whose turn it is, whole rounds, and
    resuming. */
module KernelPriorities {
  import opened Slots
  import opened ReadyRings
  import opened Handles
  import opened SignalWorld
  import opened WaitConditions
  import opened Scheduler
  import opened KernelMachine
  import opened KernelSafety
  import opened KernelRuns
  import opened KernelWaits
  import opened KernelContexts

  // ---- priorities ----------------------------------------------------------

  /** No ready task outranks the current one. */
  ghost predicate TopRuns(k: Kernel)
    requires Shape(k)
  {
    forall p, t {:trigger t in k.ready[p].tasks} :: 0 <= p < PRIORITIES && t in k.ready[p].tasks ==>
      k.tasks[k.current].priority <= p
  }

  lemma ChosenIsTop(k: Kernel)
    requires Sound(k)
    ensures CanChoose(k) && TopRuns(Choose(k))
    ensures CanChoose(MovedOn(k)) && TopRuns(ChooseNext(k))
  {
    AlwaysATask(k);
    var p := FirstReady(k.ready);
    assert CurrentTask(k).value in k.ready[p].tasks;
    assert CurrentTask(MovedOn(k)).value in k.ready[p].tasks;
  }

  /** After either system call the task that runs has the highest priority of all ready ones. */
  lemma SystemCallsRunTheTop(m: Machine)
    requires Inv(m) && m.mode.Ending? && m.mode.ending != Leave
    ensures Enabled(m, Close) && Shape(Next(m, Close).k) && TopRuns(Next(m, Close).k)
  {
    AlwaysATask(m.k);
    StepKeepsInv(m, Close);
    ChosenIsTop(m.k);
    ChooseKeepsRecords(m.k);
  }

  lemma ChosenPriority(t: Kernel)
    requires Sound(t) && InReady(t, t.current)
    ensures var u := t.(oldTime := t.now);
            && CanChoose(MovedOn(t)) && Shape(u) && CanChoose(MovedOn(u))
            && var c := ChooseNext(u);
            && c.ready == MovedOn(t).ready && |c.tasks| == |t.tasks| && c.current < |t.tasks|
            && c.tasks[c.current].priority == FirstReady(t.ready)
  {
    AlwaysATask(t);
    hide Waitable, RingOk, NoneLost, WaitOk, IdleOk;
    assert CurrentTask(MovedOn(t)).value in t.ready[FirstReady(t.ready)].tasks;
  }

  lemma SwapKeepsPriorities(c: Kernel, from: nat)
    requires from < |c.tasks| && c.current < |c.tasks|
    ensures var r := Swapped(c, from);
            && r.ready == c.ready && r.current == c.current && |r.tasks| == |c.tasks|
            && forall t :: 0 <= t < |c.tasks| ==> r.tasks[t].priority == c.tasks[t].priority
  {
  }

  lemma SwitchedPriority(t: Kernel)
    requires Sound(t) && InReady(t, t.current) && Elapsed(t.now, t.oldTime) > SWITCH_INTERVAL
    ensures CanChoose(MovedOn(t))
    ensures var r := SwitchIfElapsed(t);
            && r.ready == MovedOn(t).ready && |r.tasks| == |t.tasks| && r.current < |t.tasks|
            && r.tasks[r.current].priority == FirstReady(t.ready)
  {
    hide Sound, CurrentTask, ChooseNext, MovedOn, Swapped, Waitable, RingOk;
    SoundHasShape(t);
    ChosenPriority(t);
    SwapKeepsPriorities(ChooseNext(t.(oldTime := t.now)), t.current);
  }

  lemma TopAfterChoice(t: Kernel, r: Kernel)
    requires Shape(t) && Shape(r) && r.ready == MovedOn(t).ready
    requires r.tasks[r.current].priority == FirstReady(t.ready)
    ensures TopRuns(r)
  {
    hide Waitable, RingOk;
  }

  lemma SwitchRunsTheTop(t: Kernel)
    requires Sound(t) && t.live[t.current] && InReady(t, t.current)
    ensures Shape(t) && CanChoose(MovedOn(t)) && Shape(SwitchIfElapsed(t))
    ensures TopRuns(SwitchIfElapsed(t)) <==> Elapsed(t.now, t.oldTime) > SWITCH_INTERVAL || TopRuns(t)
  {
    SwitchIfElapsedKeepsSound(t);
    hide ReadyOk, WaitOk, NoneLost, IdleOk, ChooseNext, TopRuns;
    if Elapsed(t.now, t.oldTime) > SWITCH_INTERVAL {
      SwitchedPriority(t);
      TopAfterChoice(t, SwitchIfElapsed(t));
    }
  }

  lemma TimePassesForAll(k: Kernel, now: Word)
    requires Shape(k)
    ensures Shape(k.(now := now)) && (TopRuns(k.(now := now)) <==> TopRuns(k))
  {
  }

  /** A tick ends the wait of task `t`: the verdict on its slot, at that slot's turn. */
  ghost predicate WokenByTick(k: Kernel, t: nat)
    requires Shape(k)
  {
    exists i :: 0 <= i < |k.waiting| && k.waiting[i].Some? && k.waiting[i].value.task == t && TickVerdict(k, i).Woken?
  }

  /** After the scan exactly those tasks are ready that were before or whose wait it ended. */
  lemma ReadyAfterTick(k: Kernel, t: nat)
    requires Sound(k) && t < |k.tasks|
    ensures var r := Ticking(k);
            && Sound(r) && |r.tasks| == |k.tasks| && r.current == k.current
            && r.tasks[t].priority == k.tasks[t].priority
            && (InReady(r, t) <==> InReady(k, t) || WokenByTick(k, t))
  {
    hide ReadyOk, WaitOk, NoneLost, IdleOk, RingOk, Ticking, TickVerdict;
    TickingKeepsSound(k);
    TickScans(k);
    if WaitsIn(k.waiting, t) {
      var i :| 0 <= i < |k.waiting| && k.waiting[i].Some? && k.waiting[i].value.task == t;
      WaiterAfterTick(k, i);
    }
  }

  lemma WaiterAfterTick(k: Kernel, i: nat)
    requires Sound(k) && i < |k.waiting| && k.waiting[i].Some? && TickScanned(k, Ticking(k)) && Sound(Ticking(k))
    ensures var t := k.waiting[i].value.task;
            && t < |k.tasks| && !InReady(k, t) && |Ticking(k).tasks| == |k.tasks|
            && (InReady(Ticking(k), t) <==> TickVerdict(k, i).Woken?)
            && (WokenByTick(k, t) <==> TickVerdict(k, i).Woken?)
  {
    hide ReadyOk, NoneLost, IdleOk, RingOk, Ticking, TickVerdict, Waitable;
    assert SlotServed(k, Ticking(k), i, TickVerdict(k, i));
  }

  /** Nobody outranks the running task after the scan exactly when nobody did before it and
      none whose wait it ended does. */
  lemma TopAfterWaking(k: Kernel)
    requires Sound(k)
    ensures Sound(Ticking(k)) && |Ticking(k).tasks| == |k.tasks|
    ensures TopRuns(Ticking(k)) <==>
              TopRuns(k) && forall t :: 0 <= t < |k.tasks| && WokenByTick(k, t) ==>
                              k.tasks[k.current].priority <= k.tasks[t].priority
  {
    hide Sound, TopRuns, Ticking, WokenByTick, Waitable, RingOk, InReady;
    SoundHasShape(k);
    TickingKeepsSound(k);
    TopByTask(k);
    TopByTask(Ticking(k));
    ReadyAfterTick(k, k.current);
    forall t | 0 <= t < |k.tasks|
      ensures Ticking(k).tasks[t].priority == k.tasks[t].priority
      ensures InReady(Ticking(k), t) <==> InReady(k, t) || WokenByTick(k, t)
    {
      ReadyAfterTick(k, t);
    }
  }

  /** The same said task by task instead of list by list. */
  lemma TopByTask(k: Kernel)
    requires Sound(k)
    ensures TopRuns(k) <==> forall t :: 0 <= t < |k.tasks| && InReady(k, t) ==>
                              k.tasks[k.current].priority <= k.tasks[t].priority
  {
    hide WaitOk, NoneLost, IdleOk, Waitable, RingOk;
  }

  /** After a tick of an unlocked kernel no ready task outranks the running one exactly when the
      round-robin interval was over, or none did before and no wait that this tick ends belongs
      to one that does. All of this is read off the state before the tick: a task of higher
      priority that a tick wakes has to wait for the interval. */
  lemma TickRunsTheTopExactly(k: Kernel)
    requires Sound(k) && k.live[k.current] && InReady(k, k.current) && k.interlock == 0
    ensures CanChoose(MovedOn(Ticking(k))) && Shape(Tick(k))
    ensures TopRuns(Tick(k)) <==>
              || Elapsed(k.now, k.oldTime) > SWITCH_INTERVAL
              || (TopRuns(k) && forall t :: 0 <= t < |k.tasks| && WokenByTick(k, t) ==>
                                  k.tasks[k.current].priority <= k.tasks[t].priority)
  {
    TickingKeepsSound(k);
    TopAfterWaking(k);
    SwitchRunsTheTop(Ticking(k));
    hide Sound, Ticking, SwitchIfElapsed, CanChoose, TopRuns, WokenByTick;
    var s := SwitchIfElapsed(Ticking(k));
    TimePassesForAll(s, Incremented(s.now));
  }

  /** Moving on rotates the order of service of the highest ready priority by one task and
      leaves every other list as it is; without a ready task nothing moves. */
  lemma TopListTurns(k: Kernel)
    requires Shape(k)
    ensures var p, r := FirstReady(k.ready), MovedOn(k);
            if p == PRIORITIES then r == k
            else
              && r == k.(ready := r.ready) && |r.ready| == PRIORITIES
              && (forall q :: 0 <= q < PRIORITIES && q != p ==> r.ready[q] == k.ready[q])
              && r.ready[p].at <= |r.ready[p].tasks| && k.ready[p].at <= |k.ready[p].tasks|
              && var turn := Turn(k.ready[p]);
              && turn != [] && Turn(r.ready[p]) == turn[1..] + [turn[0]]
              && CurrentTask(r) == Some(Turn(r.ready[p])[0])
  {
    var p := FirstReady(k.ready);
    if p < PRIORITIES {
      AdvanceRotates(k.ready[p]);
    }
    hide Waitable, RingOk;
  }

  // ---- who is woken first ----------------------------------------------------

  /** The tasks of priority `p` whose waits the first `n` turns of a tick end, in slot order. */
  ghost function WokenBefore(k: Kernel, n: nat, p: nat): seq<nat>
    requires Shape(k) && n <= |k.waiting|
  {
    if n == 0 then []
    else
      WokenBefore(k, n - 1, p) +
      if k.waiting[n - 1].Some? && TickVerdict(k, n - 1).Woken?
         && k.tasks[k.waiting[n - 1].value.task].priority == p
      then [k.waiting[n - 1].value.task] else []
  }

  /** Tasks have joined each list at its end, and nobody's turn has moved. */
  ghost predicate Joined(k: Kernel, r: Kernel, n: nat)
    requires Shape(k) && n <= |k.waiting|
  {
    |r.ready| == PRIORITIES && forall p :: 0 <= p < PRIORITIES ==>
      r.ready[p] == TaskRing(k.ready[p].tasks + WokenBefore(k, n, p), k.ready[p].at)
  }

  lemma {:induction false} ScanJoins(k: Kernel, n: nat)
    requires Sound(k) && n <= |k.waiting|
    ensures var timed := k.(world := TickTimers(k.world, k.now));
            Shape(timed) && Joined(k, Scan(timed, n), n)
  {
    hide Sound, Waitable, RingOk, Joined, Scanned, CheckSlot;
    var timed := k.(world := TickTimers(k.world, k.now));
    SoundHasShape(k);
    TimersAreApart(k);
    SoundHasShape(timed);
    if n == 0 {
      NobodyJoined(k, timed);
    } else {
      ScanJoins(k, n - 1);
      var s := Scan(timed, n - 1);
      ScanKeepsSound(timed, n - 1);
      WholeScan(timed, n - 1);
      SlotAtTurn(k, timed, s, n - 1);
      SlotJoins(k, s, n - 1);
    }
  }

  lemma NobodyJoined(k: Kernel, r: Kernel)
    requires Shape(k) && r.ready == k.ready
    ensures Joined(k, r, 0)
  {
    hide Waitable, RingOk;
    assert forall p :: 0 <= p < PRIORITIES ==> k.ready[p].tasks + WokenBefore(k, 0, p) == k.ready[p].tasks;
  }

  /** A slot is as before until its turn, and the objects are those of its turn. */
  lemma SlotAtTurn(k: Kernel, timed: Kernel, s: Kernel, j: nat)
    requires Sound(k) && j < |k.waiting| && timed == k.(world := TickTimers(k.world, k.now)) && Shape(timed)
    requires Scanned(timed, s, j)
    ensures Shape(s) && |s.waiting| == |k.waiting| && s.waiting[j] == k.waiting[j] && |s.tasks| == |k.tasks|
    ensures s.now == k.now && s.world == WorldAtTurn(k, j)
    ensures k.waiting[j].Some? ==> s.tasks[k.waiting[j].value.task] == k.tasks[k.waiting[j].value.task]
  {
    hide Waitable, RingOk, ScanWorld, TurnVerdict, SlotServed;
  }

  lemma SlotJoins(k: Kernel, s: Kernel, j: nat)
    requires Sound(k) && Sound(s) && j < |k.waiting| && Joined(k, s, j)
    requires |s.waiting| == |k.waiting| && s.waiting[j] == k.waiting[j] && |s.tasks| == |k.tasks|
    requires s.now == k.now && s.world == WorldAtTurn(k, j)
    requires k.waiting[j].Some? ==> s.tasks[k.waiting[j].value.task] == k.tasks[k.waiting[j].value.task]
    ensures Joined(k, CheckSlot(s, j), j + 1)
  {
    TurnAppends(s, j);
    hide Sound, Waitable, RingOk, ScanWorld, Check, CheckSlot;
    SoundHasShape(s);
  }

  /** One slot's turn appends its task to the list of its priority exactly when its wait ends. */
  lemma TurnAppends(s: Kernel, j: nat)
    requires Sound(s) && j < |s.waiting|
    ensures CheckSlot(s, j).ready
            == if s.waiting[j].Some? && Check(s.world, s.waiting[j].value.conditions, s.now).Woken?
               then
                 var t := s.waiting[j].value.task;
                 var p := s.tasks[t].priority;
                 s.ready[p := TaskRing(s.ready[p].tasks + [t], s.ready[p].at)]
               else s.ready
  {
    if s.waiting[j].Some? {
      var v := Check(s.world, s.waiting[j].value.conditions, s.now);
      ReadyListHasRoom(s.(world := v.world), s.waiting[j].value.task);
    }
    hide ReadyOk, NoneLost, IdleOk, Waitable, RingOk, Check;
  }

  /** The tasks a tick wakes join the list of their priority at its end in the order of their
      slots; whose turn it is stays as it was, and so does every task's place before them. */
  lemma TickWakesInSlotOrder(k: Kernel, p: nat)
    requires Sound(k) && p < PRIORITIES
    ensures Shape(k) && Shape(Ticking(k))
    ensures Ticking(k).ready[p] == TaskRing(k.ready[p].tasks + WokenBefore(k, |k.waiting|, p), k.ready[p].at)
    ensures Ticking(k).world == ScanWorld(TickTimers(k.world, k.now), k.waiting, k.now, |k.waiting|)
  {
    var timed := k.(world := TickTimers(k.world, k.now));
    TimersAreApart(k);
    ScanJoins(k, |k.waiting|);
    WholeScan(timed, |k.waiting|);
    hide ReadyOk, WaitOk, NoneLost, IdleOk, Waitable, RingOk, Scan, WokenBefore;
  }

  // ---- whose turn it is ------------------------------------------------------

  /** After either system call the running task is the one whose turn it is in the list of the
      highest ready priority; it is marked running, no list has moved, and no other task is
      marked anew. */
  lemma SystemCallsServeTheTurn(m: Machine)
    requires Inv(m) && m.mode.Ending? && m.mode.ending != Leave
    ensures Enabled(m, Close) && Shape(m.k)
    ensures var p, r := FirstReady(m.k.ready), Next(m, Close).k;
            && p < PRIORITIES && Turn(m.k.ready[p]) != [] && r.current == Turn(m.k.ready[p])[0]
            && r.ready == m.k.ready && |r.tasks| == |m.k.tasks|
            && forall t :: 0 <= t < |r.tasks| ==>
                 r.tasks[t].state == if t == r.current then Running else m.k.tasks[t].state
  {
    AlwaysATask(m.k);
    ChoiceServesTurn(m.k);
    var k, c := m.k, Choose(m.k);
    SwapKeepsOrder(Unlock(c), k.current);
    hide Sound, Waitable, RingOk, Choose, Swapped;
    SoundHasShape(k);
  }

  lemma ChoiceServesTurn(k: Kernel)
    requires Shape(k) && CanChoose(k)
    ensures var p, r := FirstReady(k.ready), Choose(k);
            && p < PRIORITIES && Turn(k.ready[p]) != [] && r.current == Turn(k.ready[p])[0] < |k.tasks|
            && r.ready == k.ready && |r.tasks| == |k.tasks|
            && forall t :: 0 <= t < |r.tasks| ==>
                 r.tasks[t].state == if t == r.current then Running else k.tasks[t].state
  {
    hide Waitable;
  }

  /** Who runs after a change of context: the task at the front of a turn that has moved on by
      one, marked running while the one before it is marked ready. */
  ghost predicate NextRuns(t: Kernel, r: Kernel, p: nat)
    requires Shape(t) && p < PRIORITIES && t.current < |t.tasks|
  {
    var turn := Turn(t.ready[p]);
    && turn != [] && |r.tasks| == |t.tasks| && |r.ready| == PRIORITIES
    && r.current == turn[if |turn| == 1 then 0 else 1]
    && r.ready[p].at <= |r.ready[p].tasks| && Turn(r.ready[p]) == turn[1..] + [turn[0]]
    && (forall q :: 0 <= q < PRIORITIES && q != p ==> r.ready[q] == t.ready[q])
    && forall x :: 0 <= x < |t.tasks| ==>
         r.tasks[x].state ==
           if x == r.current then Running else if x == t.current then Ready else t.tasks[x].state
  }

  lemma ChoiceRunsNext(t: Kernel)
    requires Sound(t)
    ensures CanChoose(MovedOn(t)) && FirstReady(t.ready) < PRIORITIES
    ensures NextRuns(t, ChooseNext(t), FirstReady(t.ready))
  {
    AlwaysATask(t);
    TopListTurns(t);
    hide Waitable, RingOk, ReadyOk, WaitOk, NoneLost, IdleOk, CurrentTask, MovedOn;
  }

  lemma SwapKeepsOrder(c: Kernel, from: nat)
    requires from < |c.tasks| && c.current < |c.tasks|
    ensures var r := Swapped(c, from);
            && r.ready == c.ready && r.current == c.current && r.now == c.now && r.oldTime == c.oldTime
            && |r.tasks| == |c.tasks| && forall t :: 0 <= t < |c.tasks| ==> r.tasks[t].state == c.tasks[t].state
  {
  }

  lemma SwitchRunsNext(t: Kernel)
    requires Sound(t)
    ensures CanChoose(MovedOn(t)) && FirstReady(t.ready) < PRIORITIES
    ensures var r := SwitchIfElapsed(t);
            && r.now == t.now
            && if Elapsed(t.now, t.oldTime) > SWITCH_INTERVAL
               then r.oldTime == t.now && NextRuns(t, r, FirstReady(t.ready))
               else r == t
  {
    SoundHasShape(t);
    ChoiceRunsNext(t);
    var u := t.(oldTime := t.now);
    LaterIsSound(t);
    hide Sound, Waitable, RingOk, ChooseNext, MovedOn, CurrentTask, Swapped, NextRuns, Elapsed;
    SoundHasShape(u);
    if Elapsed(t.now, t.oldTime) > SWITCH_INTERVAL {
      ChoiceRunsNext(u);
      var c := ChooseNext(u);
      ChoiceKeepsTime(u);
      SwapRunsNext(t, c, FirstReady(t.ready));
    }
  }

  lemma ChoiceKeepsTime(t: Kernel)
    requires Shape(t) && CanChoose(MovedOn(t))
    ensures var c := ChooseNext(t); c.now == t.now && c.oldTime == t.oldTime && Shape(c)
  {
    hide Waitable, RingOk, CurrentTask;
  }

  /** Only order, marks and the running task matter to `NextRuns`. */
  lemma SwapRunsNext(t: Kernel, c: Kernel, p: nat)
    requires Shape(t) && Shape(c) && p < PRIORITIES && NextRuns(t.(oldTime := t.now), c, p)
    ensures NextRuns(t, c, p) && NextRuns(t, Swapped(c, t.current), p)
    ensures Swapped(c, t.current).now == c.now && Swapped(c, t.current).oldTime == c.oldTime
  {
    SwapKeepsOrder(c, t.current);
    hide Waitable, RingOk, Swapped, Turn;
  }

  lemma LaterIsSound(t: Kernel)
    requires Sound(t)
    ensures Sound(t.(oldTime := t.now))
  {
    hide Waitable, RingOk;
  }

  /** A tick always counts one millisecond. In an unlocked kernel whose round-robin interval is
      over it takes the time of that interval, and hands the processor to the second task in the
      turn of the highest ready priority, or to the first if it is alone, the one served so far
      going to the end of the turn; the waits that this tick ended are ready by then. Otherwise
      the running task goes on and no list moves. */
  lemma TickRunsNext(k: Kernel)
    requires Sound(k)
    ensures Shape(k) && Shape(Ticking(k)) && CanChoose(MovedOn(Ticking(k)))
    ensures var t, r, over := Ticking(k), Tick(k), Elapsed(k.now, k.oldTime) > SWITCH_INTERVAL;
            && r.now == Incremented(k.now)
            && r.oldTime == (if k.interlock == 0 && over then k.now else k.oldTime)
            && FirstReady(t.ready) < PRIORITIES && t.current == k.current
            && if k.interlock != 0 then r == k.(now := r.now)
               else if over then NextRuns(t, r, FirstReady(t.ready))
               else r.current == k.current && r.ready == t.ready && r.tasks == t.tasks
  {
    SoundHasShape(k);
    TickingKeepsSound(k);
    SoundHasShape(Ticking(k));
    SwitchRunsNext(Ticking(k));
    hide Sound, Waitable, RingOk, Ticking, SwitchIfElapsed, CanChoose, MovedOn, NextRuns, Elapsed;
    var t := Ticking(k);
    var s := SwitchIfElapsed(t);
    if k.interlock == 0 && Elapsed(k.now, k.oldTime) > SWITCH_INTERVAL {
      CountedRunsNext(t, s, FirstReady(t.ready));
    }
  }

  lemma CountedRunsNext(t: Kernel, s: Kernel, p: nat)
    requires Shape(t) && p < PRIORITIES && NextRuns(t, s, p)
    ensures forall now :: NextRuns(t, s.(now := now), p)
  {
    hide Waitable, RingOk, Turn;
  }

  // ---- a whole round ---------------------------------------------------------

  /** A tick that switches. */
  ghost predicate Switches(m: Machine, step: Step) {
    step == TickStep && m.k.interlock == 0 && Elapsed(m.k.now, m.k.oldTime) > SWITCH_INTERVAL
  }

  /** The tasks that became current at the switching ticks of a run, in this order. */
  ghost function Takers(m: Machine, steps: seq<Step>): seq<nat>
    requires IsRun(m, steps)
    decreases |steps|
  {
    if steps == [] then []
    else
      var r := Next(m, steps[0]);
      (if Switches(m, steps[0]) then [r.k.current] else []) + Takers(r, steps[1..])
  }

  /** Only a switching tick moves the list of priority `p`, and then it is the one to serve. */
  ghost predicate StepUndisturbed(m: Machine, step: Step, p: nat)
    requires Enabled(m, step) && p < PRIORITIES
  {
    var r := Next(m, step).k;
    && |r.ready| == PRIORITIES
    && (if Switches(m, step) then FirstReady(Ticking(m.k).ready) == p && Ticking(m.k).ready[p] == m.k.ready[p]
        else r.ready[p] == m.k.ready[p])
  }

  ghost predicate Undisturbed(m: Machine, steps: seq<Step>, p: nat)
    requires IsRun(m, steps) && p < PRIORITIES
    decreases |steps|
  {
    steps == [] || (StepUndisturbed(m, steps[0], p) && Undisturbed(Next(m, steps[0]), steps[1..], p))
  }

  /** The `n`-th place around a circle of `size`, one place further on. */
  lemma OneFurther(n: nat, size: nat)
    requires size > 0
    ensures (n + 1) % size == if n % size + 1 == size then 0 else n % size + 1
  {
    assert n == size * (n / size) + n % size;
    var x := if n % size + 1 == size then 0 else n % size + 1;
    var q := if n % size + 1 == size then n / size + 1 else n / size;
    assert n + 1 == size * q + x by {
      assert size * (n / size + 1) == size * (n / size) + size;
    }
    DivisionUnique(n + 1, size, q, x);
  }

  lemma DivisionUnique(n: nat, size: nat, q: nat, x: nat)
    requires n == size * q + x && x < size
    ensures n % size == x
  {
    var d := q - n / size;
    assert size * d == n % size - x;
    NoMultipleBetween(size, d);
  }

  lemma NoMultipleBetween(size: int, d: int)
    requires size > 0 && -size < size * d < size
    ensures d == 0
  {
    AtLeastOnce(size, d);
    AtLeastOnce(size, -d);
  }

  lemma AtLeastOnce(size: int, d: int)
    requires size > 0
    ensures d >= 1 ==> size * d >= size
  {
    if d >= 1 {
      assert size * d == size * (d - 1) + size;
    }
  }

  lemma RotationAt(turn: seq<nat>, n: nat)
    requires turn != []
    ensures (turn[1..] + [turn[0]])[n % |turn|] == turn[(n + 1) % |turn|]
  {
    OneFurther(n, |turn|);
  }

  /** Round robin over any run: whatever else happens between the switching ticks, as long as it
      leaves the list alone, those ticks serve its tasks in the order of their turn, around and
      around. */
  lemma {:induction false} TakersGoAround(m: Machine, steps: seq<Step>, p: nat)
    requires Inv(m) && IsRun(m, steps) && p < PRIORITIES && Undisturbed(m, steps, p)
    requires |m.k.ready| == PRIORITIES && m.k.ready[p].tasks != [] && m.k.ready[p].at < |m.k.ready[p].tasks|
    ensures GoAround(Turn(m.k.ready[p]), Takers(m, steps))
    decreases |steps|
  {
    if steps != [] {
      hide Inv, RingOk, Waitable, Turn, Next, Switches, Enabled, StepUndisturbed;
      var r, turn := Next(m, steps[0]), Turn(m.k.ready[p]);
      StepKeepsInv(m, steps[0]);
      FirstTaker(m, steps[0], p);
      TakersGoAround(r, steps[1..], p);
      if Switches(m, steps[0]) {
        OneMoreTaker(turn, Takers(r, steps[1..]));
        assert Takers(m, steps) == [turn[if |turn| == 1 then 0 else 1]] + Takers(r, steps[1..]);
      } else {
        assert Takers(m, steps) == Takers(r, steps[1..]);
      }
    }
  }

  /** In the order of a turn, beginning with its second task, around and around. */
  ghost predicate GoAround(turn: seq<nat>, takers: seq<nat>) {
    turn != [] && forall i :: 0 <= i < |takers| ==> takers[i] == turn[(i + 1) % |turn|]
  }

  lemma OneMoreTaker(turn: seq<nat>, rest: seq<nat>)
    requires turn != [] && GoAround(turn[1..] + [turn[0]], rest)
    ensures GoAround(turn, [turn[if |turn| == 1 then 0 else 1]] + rest)
  {
    var takers := [turn[if |turn| == 1 then 0 else 1]] + rest;
    forall i | 0 <= i < |takers| ensures takers[i] == turn[(i + 1) % |turn|] {
      if i == 0 {
        OneFurther(0, |turn|);
      } else {
        assert takers[i] == rest[i - 1];
        RotationAt(turn, i);
      }
    }
  }

  lemma FirstTaker(m: Machine, step: Step, p: nat)
    requires Inv(m) && Enabled(m, step) && p < PRIORITIES && StepUndisturbed(m, step, p)
    requires m.k.ready[p].tasks != []
    ensures var r := Next(m, step);
            && |r.k.ready| == PRIORITIES && r.k.ready[p].tasks != [] && r.k.ready[p].at < |r.k.ready[p].tasks|
            && m.k.ready[p].at < |m.k.ready[p].tasks|
            && var turn := Turn(m.k.ready[p]);
            && turn != []
            && if Switches(m, step)
               then r.k.current == turn[if |turn| == 1 then 0 else 1] && Turn(r.k.ready[p]) == turn[1..] + [turn[0]]
               else r.k.ready[p] == m.k.ready[p]
  {
    var r := Next(m, step);
    StepKeepsInv(m, step);
    SoundHasShape(r.k);
    SoundHasShape(m.k);
    assert RingOk(m.k.ready[p]) && RingOk(r.k.ready[p]);
    if Switches(m, step) {
      TickRunsNext(m.k);
      assert r.k == Tick(m.k);
    }
    hide Sound, Tick, Waitable, Distinct, Ticking, CanChoose, Elapsed;
  }

  /** In a round each listed task becomes current exactly once, the one served before it last. */
  lemma RoundServesEachOnce(m: Machine, steps: seq<Step>, p: nat)
    requires Inv(m) && IsRun(m, steps) && p < PRIORITIES && Undisturbed(m, steps, p)
    requires |m.k.ready| == PRIORITIES && m.k.ready[p].tasks != []
    requires |Takers(m, steps)| == |m.k.ready[p].tasks|
    ensures var takers, ring := Takers(m, steps), m.k.ready[p];
            && Distinct(takers) && (forall t :: t in takers <==> t in ring.tasks)
            && ring.at < |ring.tasks| && takers[|takers| - 1] == ring.tasks[ring.at]
  {
    hide IsRun, Undisturbed, Takers;
    var takers, ring := Takers(m, steps), m.k.ready[p];
    assert RingOk(ring);
    TakersGoAround(m, steps, p);
    TurnIsPermutation(ring);
    hide Inv, RingOk;
    var turn := Turn(ring);
    assert turn[0] == ring.tasks[ring.at];
    RoundIsTurn(turn, takers);
  }

  lemma RoundIsTurn(turn: seq<nat>, takers: seq<nat>)
    requires GoAround(turn, takers) && |takers| == |turn| && Distinct(turn)
    ensures takers == turn[1..] + [turn[0]] && Distinct(takers)
    ensures forall t :: t in takers <==> t in turn
  {
    RoundIsRotation(turn, takers);
    RotationKeepsMembers(turn);
    hide GoAround, Distinct;
  }

  lemma RoundIsRotation(turn: seq<nat>, takers: seq<nat>)
    requires GoAround(turn, takers) && |takers| == |turn|
    ensures takers == turn[1..] + [turn[0]]
  {
    forall i | 0 <= i < |takers| ensures takers[i] == (turn[1..] + [turn[0]])[i] {
      WithinRound(i, |turn|);
    }
  }

  lemma WithinRound(i: nat, size: nat)
    requires i < size
    ensures (i + 1) % size == if i + 1 == size then 0 else i + 1
  {
    DivisionUnique(i + 1, size, if i + 1 == size then 1 else 0, if i + 1 == size then 0 else i + 1);
  }

  lemma RotationKeepsMembers(turn: seq<nat>)
    requires turn != [] && Distinct(turn)
    ensures Distinct(turn[1..] + [turn[0]])
    ensures forall t :: t in turn[1..] + [turn[0]] <==> t in turn
  {
    var r := turn[1..] + [turn[0]];
    assert turn == [turn[0]] + turn[1..];
  }

  // ---- resuming ------------------------------------------------------------

  /** Resuming makes a suspended task ready, but marks the wrong task: the resumed one stays
      marked suspended and the running one is marked ready. Because of the stale mark a task
      can be resumed again while it is ready; exactly then the call changes nothing. */
  lemma ResumeMarksTheWrongTask(k: Kernel, id: nat)
    requires Sound(k) && InReady(k, k.current) && Legal(k, Resume(id))
    requires id != k.current && k.tasks[id].state == Suspended
    ensures var r := ResumeBody(k, id).k;
            && InReady(r, id)
            && r.tasks[id].state == Suspended
            && (r == k <==> InReady(k, id))
            && (!InReady(k, id) ==> r.tasks[k.current].state == Ready)
  {
    if !InReady(k, id) {
      ReadyListHasRoom(k, id);
    }
  }
}
