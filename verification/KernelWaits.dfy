/** What a wait promises: how it ends, what the task is told, and its time limit. */
module KernelWaits {
  import opened Slots
  import opened ReadyRings
  import opened Handles
  import opened SignalWorld
  import opened WaitConditions
  import opened Scheduler
  import opened KernelMachine
  import opened KernelSafety
  import opened KernelRuns

  // ---- starting to wait ----------------------------------------------------

  /** A task that parks itself is off the ready list and in the wait list, under the call's own
      conditions counted from now, for a sleep and for a wait alike, and the call ends in a
      context switch. */
  lemma ParkingSucceeds(m: Machine)
    requires Inv(m) && m.mode.Locked? && Legal(m.k, m.mode.call)
    requires m.mode.call.Sleep? || m.mode.call.Wait?
    ensures var a := Body(m.k, m.mode.call);
            var t := m.k.current;
            && a.ending == ExecuteContextSwitch
            && a.k.tasks[t].state == Scheduler.Waiting && !InReady(a.k, t)
            && (exists i :: 0 <= i < |a.k.waiting|
                  && a.k.waiting[i] == Some(WaitItem(t, ConditionsOf(m.mode.call, m.k.now))))
  {
    var k := m.k;
    var conditions := ConditionsOf(m.mode.call, k.now);
    ParkAlwaysFindsRoom(k, conditions);
    var item := WaitItem(k.current, conditions);
    var r := Park(k, conditions).value;
    var i :| 0 <= i < |k.waiting| && k.waiting[i] == None && r.waiting == k.waiting[i := Some(item)];
    assert r.waiting[i] == Some(item);
  }

  function ConditionsOf(call: Call, now: Word): Conditions
    requires call.Sleep? || (call.Wait? && call.conditions.WaitForObj?)
  {
    if call.Sleep? then WaitConditions.Sleep(call.interval, now) else call.conditions.(start := now)
  }

  // ---- one scan of the wait list -------------------------------------------

  /** The objects before slot `n` has its turn: earlier slots may have taken signals. */
  function ScanWorld(w: World, waiting: seq<Option<WaitItem>>, now: Word, n: nat): (r: World)
    requires n <= |waiting|
    requires forall i :: 0 <= i < |waiting| && waiting[i].Some? ==> Waitable(w, waiting[i].value.conditions)
    ensures forall c :: Waitable(w, c) <==> Waitable(r, c)
    ensures forall h :: Alive(w, h) <==> Alive(r, h)
  {
    if n == 0 then w
    else
      var v := ScanWorld(w, waiting, now, n - 1);
      if waiting[n - 1] == None then v else Check(v, waiting[n - 1].value.conditions, now).world
  }

  /** The verdict on slot `i` at its turn in a scan. */
  function TurnVerdict(w: World, waiting: seq<Option<WaitItem>>, now: Word, i: nat): Verdict
    requires i < |waiting| && waiting[i].Some?
    requires forall i :: 0 <= i < |waiting| && waiting[i].Some? ==> Waitable(w, waiting[i].value.conditions)
  {
    Check(ScanWorld(w, waiting, now, i), waiting[i].value.conditions, now)
  }

  /** One slot's turn touches that slot and its task only. */
  lemma TurnTouchesOne(k: Kernel, j: nat, t: nat)
    requires Sound(k) && j < |k.waiting| && t < |k.tasks|
    requires k.waiting[j].Some? ==> k.waiting[j].value.task != t
    ensures var r := CheckSlot(k, j);
            && |r.tasks| == |k.tasks| && r.tasks[t] == k.tasks[t] && InReady(r, t) == InReady(k, t)
            && forall x :: 0 <= x < |k.waiting| && x != j ==> r.waiting[x] == k.waiting[x]
  {
    hide Waitable, RingOk, NoneLost, ReadyOk, IdleOk, WaitOk;
  }

  lemma TurnTouchesSlot(k: Kernel, j: nat)
    requires Shape(k) && j < |k.waiting|
    ensures forall x :: 0 <= x < |k.waiting| && x != j ==> CheckSlot(k, j).waiting[x] == k.waiting[x]
  {
    hide Waitable, RingOk;
  }

  /** A wait that is found fulfilled wakes its task: it is made ready, told the result, and its
      slot is freed. */
  lemma FulfilledWaitWakes(k: Kernel, i: nat)
    requires Sound(k) && i < |k.waiting| && k.waiting[i].Some?
    ensures var v := Check(k.world, k.waiting[i].value.conditions, k.now);
            var r := CheckSlot(k, i);
            && r.world == v.world
            && (v.Waiting? ==> r == k.(world := v.world))
            && (v.Woken? ==> r.waiting == k.waiting[i := None] && Told(r, k.waiting[i].value.task, v))
  {
    var v := Check(k.world, k.waiting[i].value.conditions, k.now);
    ReadyListHasRoom(k.(world := v.world), k.waiting[i].value.task);
  }

  /** A task has been made ready with the result of its wait. */
  ghost predicate Told(r: Kernel, t: nat, v: Verdict) {
    && v.Woken? && |r.ready| == PRIORITIES && t < |r.tasks| && InReady(r, t)
    && r.tasks[t].state == Ready && r.tasks[t].result == v.result && r.tasks[t].signalIndex == v.index
  }

  /** A task goes on waiting. */
  ghost predicate Waits(k: Kernel, r: Kernel, i: nat)
    requires i < |k.waiting| && k.waiting[i].Some?
  {
    var t := k.waiting[i].value.task;
    && |r.waiting| == |k.waiting| && r.waiting[i] == k.waiting[i]
    && t < |k.tasks| == |r.tasks| && r.tasks[t] == k.tasks[t]
  }

  /** What the verdict says has happened. */
  ghost predicate SlotServed(k: Kernel, r: Kernel, i: nat, v: Verdict)
    requires i < |k.waiting| && k.waiting[i].Some?
  {
    match v
    case Waiting(_) => Waits(k, r, i)
    case Woken(_, _, _) => |r.waiting| == |k.waiting| && r.waiting[i] == None && Told(r, k.waiting[i].value.task, v)
  }

  /** A whole scan does exactly what the verdicts at each slot's turn say, and nothing else: no
      task that does not wait is touched. */
  ghost predicate Scanned(k: Kernel, r: Kernel, n: nat)
    requires Shape(k) && n <= |k.waiting|
  {
    && Shape(r) && |r.tasks| == |k.tasks| && |r.waiting| == |k.waiting| && r.now == k.now
    && r.world == ScanWorld(k.world, k.waiting, k.now, n)
    && (forall i :: 0 <= i < |k.waiting| ==>
          match k.waiting[i]
          case None => r.waiting[i] == None
          case Some(_) =>
            if i < n then SlotServed(k, r, i, TurnVerdict(k.world, k.waiting, k.now, i)) else Waits(k, r, i))
    && (forall t :: 0 <= t < |k.tasks| && !WaitsIn(k.waiting, t) ==>
          r.tasks[t] == k.tasks[t] && InReady(r, t) == InReady(k, t))
  }

  lemma {:induction false} WholeScan(k: Kernel, n: nat)
    requires Sound(k) && n <= |k.waiting|
    ensures Scanned(k, Scan(k, n), n)
  {
    hide ReadyOk, WaitOk, NoneLost, IdleOk, Waitable, RingOk, Scanned, CheckSlot;
    if n == 0 {
      NothingScanned(k);
    } else {
      WholeScan(k, n - 1);
      ScanKeepsSound(k, n - 1);
      ScanOneMore(k, Scan(k, n - 1), n - 1);
    }
  }

  lemma NothingScanned(k: Kernel)
    requires Sound(k)
    ensures Scanned(k, k, 0)
  {
    hide ReadyOk, WaitOk, NoneLost, IdleOk, Waitable, RingOk;
  }

  lemma ScanOneMore(k: Kernel, s: Kernel, j: nat)
    requires Sound(k) && Sound(s) && j < |k.waiting| && Scanned(k, s, j)
    ensures Scanned(k, CheckSlot(s, j), j + 1)
  {
    var r := CheckSlot(s, j);
    forall i | 0 <= i < |k.waiting|
      ensures match k.waiting[i]
              case None => r.waiting[i] == None
              case Some(_) =>
                if i < j + 1 then SlotServed(k, r, i, TurnVerdict(k.world, k.waiting, k.now, i)) else Waits(k, r, i)
    {
      SlotOneMore(k, s, j, i);
    }
    forall t | 0 <= t < |k.tasks| && !WaitsIn(k.waiting, t)
      ensures r.tasks[t] == k.tasks[t] && InReady(r, t) == InReady(k, t)
    {
      TurnTouchesOne(s, j, t);
    }
    hide Sound, Waitable, RingOk, CheckSlot, Check, SlotServed, Waits, InReady, WaitsIn;
    WorldOneMore(k, s, j);
  }

  lemma WorldOneMore(k: Kernel, s: Kernel, j: nat)
    requires Sound(k) && Sound(s) && j < |k.waiting| && Scanned(k, s, j)
    ensures var r := CheckSlot(s, j);
            && r.world == ScanWorld(k.world, k.waiting, k.now, j + 1)
            && r.now == k.now && |r.tasks| == |k.tasks|
  {
    if k.waiting[j].Some? {
      FulfilledWaitWakes(s, j);
    }
    CheckSlotOnlyWakes(s, j);
  }

  lemma SlotOneMore(k: Kernel, s: Kernel, j: nat, i: nat)
    requires Sound(k) && Sound(s) && j < |k.waiting| && i < |k.waiting| && Scanned(k, s, j)
    ensures var r := CheckSlot(s, j);
            match k.waiting[i]
            case None => r.waiting[i] == None
            case Some(_) =>
              if i < j + 1 then SlotServed(k, r, i, TurnVerdict(k.world, k.waiting, k.now, i)) else Waits(k, r, i)
  {
    if i == j {
      if k.waiting[i].Some? {
        FulfilledWaitWakes(s, i);
      }
    } else if k.waiting[i].Some? {
      TurnTouchesOne(s, j, k.waiting[i].value.task);
    } else {
      TurnTouchesSlot(s, j);
    }
  }

  // ---- the tick --------------------------------------------------------------

  /** The verdict on slot `i` at its turn in a tick, read off the state before it. */
  function TickVerdict(k: Kernel, i: nat): Verdict
    requires Shape(k) && i < |k.waiting| && k.waiting[i].Some?
  {
    TurnVerdict(TickTimers(k.world, k.now), k.waiting, k.now, i)
  }

  lemma TimersAreApart(k: Kernel)
    requires Sound(k)
    ensures var timed := k.(world := TickTimers(k.world, k.now));
            && Sound(timed)
            && forall t :: 0 <= t < |k.tasks| ==> InReady(timed, t) == InReady(k, t)
  {
  }

  ghost predicate TickScanned(k: Kernel, r: Kernel)
    requires Shape(k)
  {
    && Shape(r) && |r.tasks| == |k.tasks| && |r.waiting| == |k.waiting|
    && (forall i :: 0 <= i < |k.waiting| ==>
          if k.waiting[i] == None then r.waiting[i] == None else SlotServed(k, r, i, TickVerdict(k, i)))
    && (forall t :: 0 <= t < |k.tasks| && !WaitsIn(k.waiting, t) ==>
          r.tasks[t] == k.tasks[t] && InReady(r, t) == InReady(k, t))
  }

  lemma TickScans(k: Kernel)
    requires Sound(k)
    ensures Sound(Ticking(k)) && TickScanned(k, Ticking(k))
  {
    hide ReadyOk, WaitOk, NoneLost, IdleOk, Scan, Check, ScanWorld, Waitable, RingOk, SlotServed, Waits,
        InReady, WaitsIn;
    TimersAreApart(k);
    TickingKeepsSound(k);
    var timed := k.(world := TickTimers(k.world, k.now));
    WholeScan(timed, |k.waiting|);
    forall i | 0 <= i < |k.waiting| && k.waiting[i].Some?
      ensures SlotServed(k, Ticking(k), i, TickVerdict(k, i))
    {
      SameServed(k, timed, Ticking(k), i, TickVerdict(k, i));
    }
  }

  lemma SameServed(k: Kernel, timed: Kernel, r: Kernel, i: nat, v: Verdict)
    requires timed.tasks == k.tasks && timed.waiting == k.waiting && i < |k.waiting| && k.waiting[i].Some?
    ensures SlotServed(k, r, i, v) <==> SlotServed(timed, r, i, v)
  {
  }

  /** What a tick makes of each wait, read off the objects at its slot's turn: a sleep ends by its
      limit; a wait whose limit has passed ends with a timeout; any other wait ends exactly when
      every object it needs is signaled, with index 0, and takes their signals and no other; and
      nothing else changes an object. */
  lemma TickVerdictExactly(k: Kernel, i: nat)
    requires Shape(k) && i < |k.waiting| && k.waiting[i].Some?
    ensures var c := k.waiting[i].value.conditions;
            var w, v := WorldAtTurn(k, i), TickVerdict(k, i);
            && Waitable(w, c)
            && if c.Sleep? then v == if Due(c, k.now) then Woken(ObjectSet, 0, w) else Verdict.Waiting(w)
               else if Due(c, k.now) then v == Woken(TimeoutOccurred, 0, w)
               else
                 && (forall h :: h in Needed(c) ==> Alive(w, h))
                 && (v.Woken? <==> forall h :: h in Needed(c) ==> Signaled(w, h))
                 && (v.Woken? ==> v.result == ObjectSet && v.index == 0 && TakenFrom(w, Needed(c), v.world))
                 && (v.Waiting? ==> v.world == w)
  {
    hide RingOk, ScanWorld, Check, Signaled, TakenFrom, Alive, Waitable;
    WaitableAtTurn(k, i);
    CheckExactly(WorldAtTurn(k, i), k.waiting[i].value.conditions, k.now);
  }

  /** The objects at the turn of slot `i` in a tick. */
  ghost function WorldAtTurn(k: Kernel, i: nat): World
    requires Shape(k) && i < |k.waiting|
  {
    ScanWorld(TickTimers(k.world, k.now), k.waiting, k.now, i)
  }

  lemma WaitableAtTurn(k: Kernel, i: nat)
    requires Shape(k) && i < |k.waiting| && k.waiting[i].Some?
    ensures Waitable(WorldAtTurn(k, i), k.waiting[i].value.conditions)
  {
    hide RingOk, Alive;
  }

  /** The objects from one turn to the next are those the verdict leaves, and those a slot without
      a wait finds; the first turn finds the ticked timers. */
  lemma TurnsFollow(k: Kernel, i: nat)
    requires Shape(k) && i < |k.waiting|
    ensures WorldAtTurn(k, 0) == TickTimers(k.world, k.now)
    ensures i + 1 < |k.waiting| ==>
              WorldAtTurn(k, i + 1) == if k.waiting[i].Some? then TickVerdict(k, i).world else WorldAtTurn(k, i)
  {
    hide RingOk, Alive, Check;
  }

  /** Time limits are kept to the tick: a check of the wait list ends every wait whose limit has
      passed, whatever the objects it waits for, and tells its task so; and it ends no sleep
      whose limit has not passed. */
  lemma TimeLimitsAreKept(k: Kernel, i: nat)
    requires Sound(k) && i < |k.waiting| && k.waiting[i].Some?
    ensures var item := k.waiting[i].value;
            var r := Ticking(k);
            && |r.tasks| == |k.tasks| && |r.waiting| == |k.waiting| && item.task < |k.tasks|
            && (Due(item.conditions, k.now) ==>
                  && InReady(r, item.task) && r.tasks[item.task].state == Ready
                  && r.tasks[item.task].result == if item.conditions.Sleep? then ObjectSet else TimeoutOccurred)
            && (item.conditions.Sleep? && !Due(item.conditions, k.now) ==>
                  r.waiting[i] == k.waiting[i] && !InReady(r, item.task))
  {
    TickScans(k);
    hide Ticking, ScanWorld, RingOk, ReadyOk, NoneLost, IdleOk;
  }

  // ---- one setting of an event ---------------------------------------------

  /** The wait in slot `j` ends at its turn and takes the signal of `g`. */
  ghost predicate Takes(w: World, waiting: seq<Option<WaitItem>>, now: Word, j: nat, g: Word)
    requires j < |waiting|
    requires forall i :: 0 <= i < |waiting| && waiting[i].Some? ==> Waitable(w, waiting[i].value.conditions)
  {
    && waiting[j].Some? && waiting[j].value.conditions.WaitForObj?
    && var c := waiting[j].value.conditions;
    var v := TurnVerdict(w, waiting, now, j);
    && v.Woken? && v.result == ObjectSet
    && (if c.waitForAll then g in c.signals else g == c.signals[0])
  }

  /** A scan clears a condition only where a wait takes it, and never makes one true. */
  lemma {:induction false} SignalAtTurn(w: World, waiting: seq<Option<WaitItem>>, now: Word, n: nat, g: Word)
    requires n <= |waiting| && Alive(w, g)
    requires forall i :: 0 <= i < |waiting| && waiting[i].Some? ==> Waitable(w, waiting[i].value.conditions)
    ensures var r := ScanWorld(w, waiting, now, n);
            && (Consumable(r, g) <==> Consumable(w, g))
            && (Signaled(r, g) <==>
                  Signaled(w, g) && !(Consumable(w, g) && exists j :: 0 <= j < n && Takes(w, waiting, now, j, g)))
  {
    if n > 0 {
      SignalAtTurn(w, waiting, now, n - 1, g);
      if waiting[n - 1].Some? {
        CheckTakes(ScanWorld(w, waiting, now, n - 1), waiting[n - 1].value.conditions, now, g);
      }
      hide Signaled, Consumable, Alive, Waitable, Check;
      assert (exists j :: 0 <= j < n && Takes(w, waiting, now, j, g)) <==>
             Takes(w, waiting, now, n - 1, g) || exists j :: 0 <= j < n - 1 && Takes(w, waiting, now, j, g);
    }
  }

  lemma CheckTakes(w: World, c: Conditions, now: Word, g: Word)
    requires Waitable(w, c) && Alive(w, g)
    ensures var v := Check(w, c, now);
            && (Consumable(v.world, g) <==> Consumable(w, g))
            && (Signaled(v.world, g) <==>
                  Signaled(w, g) && !(Consumable(w, g) && c.WaitForObj? && v.Woken? && v.result == ObjectSet
                                      && if c.waitForAll then g in c.signals else g == c.signals[0]))
  {
    if c.WaitForObj? {
      ConsumeAllTouchesOnlyThose(w, c.signals, g);
      ConsumeTouchesOnlyItsObject(w, c.signals[0], g);
    }
    hide Signaled, Consumable, Consume, ConsumeAll;
  }

  /** A wait on one event alone. */
  predicate SingleWait(c: Conditions, h: Word) {
    c.WaitForObj? && c.signals == [h]
  }

  /** One setting of an auto-reset event ends one wait: of the tasks that wait for it alone and
      whose time limit has not passed, a tick wakes exactly the one in the lowest slot, unless
      an earlier slot's wait for several objects takes the signal first. */
  lemma OneSettingEndsOneWait(k: Kernel, h: Word, i: nat)
    requires Shape(k) && i < |k.waiting| && k.waiting[i].Some?
    requires SingleWait(k.waiting[i].value.conditions, h) && !Due(k.waiting[i].value.conditions, k.now)
    requires TypeOf(h) == EVENT && Has(k.world.events, IdOf(h)) && !k.world.events[IdOf(h)].value.manualReset
    ensures var w := TickTimers(k.world, k.now);
            && (TickVerdict(k, i).Woken? <==>
                  Signaled(k.world, h) && forall j :: 0 <= j < i ==> !Takes(w, k.waiting, k.now, j, h))
            && (TickVerdict(k, i).Woken? <==> Takes(w, k.waiting, k.now, i, h))
            && (forall j :: 0 <= j < i && Takes(w, k.waiting, k.now, j, h) ==> TickVerdict(k, i).Waiting?)
  {
    var w := TickTimers(k.world, k.now);
    SignalAtTurn(w, k.waiting, k.now, i, h);
    var r := ScanWorld(w, k.waiting, k.now, i);
    assert Consumable(w, h) && (Signaled(w, h) <==> Signaled(k.world, h));
    var c := k.waiting[i].value.conditions;
    SingleWaitConsumesEvent(r, h, h, c.waitForAll);
    hide Signaled, Consumable, SignalVerdict, ScanWorld;
  }
}
