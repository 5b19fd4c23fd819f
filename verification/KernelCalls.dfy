/** What the locked regions of the calls mean for the tasks of the system. */
module KernelCalls {
  import opened Slots
  import Rings
  import opened ReadyRings
  import opened Handles
  import opened SignalWorld
  import opened WaitConditions
  import opened Scheduler
  import opened KernelMachine
  import opened KernelSafety
  import opened KernelRuns
  import opened KernelWaits

  /** Where a task is, and what its record says. */
  ghost predicate SameTask(k: Kernel, r: Kernel, t: nat)
    requires |k.ready| == PRIORITIES && t < |k.tasks|
  {
    && t < |r.tasks| && |r.ready| == PRIORITIES && t < |k.live| && t < |r.live|
    && r.tasks[t] == k.tasks[t] && r.live[t] == k.live[t]
    && InReady(r, t) == InReady(k, t) && WaitsIn(r.waiting, t) == WaitsIn(k.waiting, t)
  }

  /** Every other task is as it was. */
  ghost predicate OthersSame(k: Kernel, r: Kernel, id: nat)
    requires Shape(k)
  {
    && |r.tasks| == |k.tasks| && r.current == k.current && r.world == k.world && r.interlock == k.interlock
    && forall t :: 0 <= t < |k.tasks| && t != id ==> SameTask(k, r, t)
  }

  /** A task is on no list. */
  ghost predicate OnNoList(r: Kernel, id: nat) {
    |r.ready| == PRIORITIES && !WaitsIn(r.waiting, id) && forall p :: 0 <= p < PRIORITIES ==> id !in r.ready[p].tasks
  }

  /** Termination: the id is free again, on no list, and no other task notices. The next task is
      loaded without storing this one exactly when it ended itself. */
  ghost predicate Terminated(k: Kernel, a: After, id: nat)
    requires Shape(k)
  {
    && OthersSame(k, a.k, id) && OnNoList(a.k, id) && id < |a.k.live| && !a.k.live[id]
    && a.ending == if k.current == id && k.started then LoadNext else Leave
  }

  lemma TerminateMeans(k: Kernel, id: nat)
    requires Sound(k) && Legal(k, Terminate(id))
    ensures Terminated(k, TerminateBody(k, id), id)
  {
    RemovalMeans(k, id);
    hide Sound, WaitsIn, OnNoList, RemoveReady, RemoveWait, RingOk, Waitable;
    SoundHasShape(k);
    var r := TerminateBody(k, id).k;
    var s := RemoveReady(k, id).(waiting := RemoveWait(k.waiting, id));
    forall t | 0 <= t < |k.tasks| && t != id ensures SameTask(k, r, t) {
      assert SameTask(k, s, t);
    }
    assert OnNoList(s, id);
    NoListLeft(s, r, id);
  }

  lemma NoListLeft(s: Kernel, r: Kernel, id: nat)
    requires OnNoList(s, id) && r.ready == s.ready && r.waiting == s.waiting
    ensures OnNoList(r, id)
  {
  }

  /** Taking a task off both lists. */
  lemma RemovalMeans(k: Kernel, id: nat)
    requires Sound(k) && id < |k.tasks| && k.live[id]
    ensures var r := RemoveReady(k, id).(waiting := RemoveWait(k.waiting, id));
            OthersSame(k, r, id) && OnNoList(r, id)
  {
    hide Waitable, RingOk, NoneLost, IdleOk;
    var r := RemoveReady(k, id).(waiting := RemoveWait(k.waiting, id));
    forall t | 0 <= t < |k.tasks| && t != id ensures SameTask(k, r, t) {
      RemovalSpares(k.waiting, id, t);
    }
  }

  lemma RemovalSpares(waiting: seq<Option<WaitItem>>, id: nat, t: nat)
    requires t != id
    ensures WaitsIn(RemoveWait(waiting, id), t) == WaitsIn(waiting, t)
  {
    var r := RemoveWait(waiting, id);
    if WaitsIn(waiting, t) {
      var i :| 0 <= i < |waiting| && waiting[i].Some? && waiting[i].value.task == t;
      assert r[i] == waiting[i];
    }
    if WaitsIn(r, t) {
      var i :| 0 <= i < |r| && r[i].Some? && r[i].value.task == t;
      assert r[i] == waiting[i];
    }
  }

  /** Suspension: the task stays alive, marked suspended, on no list, with its answer and its
      saved state; no other task notices; the caller is switched away exactly when it
      suspended itself. */
  ghost predicate IsSuspended(k: Kernel, a: After, id: nat)
    requires Shape(k) && id < |k.tasks|
  {
    && OthersSame(k, a.k, id) && OnNoList(a.k, id) && a.k.live == k.live
    && a.k.tasks == k.tasks[id := k.tasks[id].(state := Suspended)]
    && a.ending == if k.current == id then ExecuteContextSwitch else Leave
  }

  lemma SuspendMeans(k: Kernel, id: nat)
    requires Sound(k) && Legal(k, Suspend(id))
    ensures IsSuspended(k, SuspendBody(k, id), id)
  {
    RemovalMeans(k, id);
    hide ReadyOk, WaitOk, NoneLost, IdleOk, WaitsIn, OnNoList, RemoveWait, Waitable, RingOk;
    var r := SuspendBody(k, id).k;
    var s := RemoveReady(k, id).(waiting := RemoveWait(k.waiting, id));
    assert r.ready == s.ready;
    NoListLeft(s, r, id);
    forall t | 0 <= t < |k.tasks| && t != id ensures SameTask(k, r, t) {
      assert SameTask(k, s, t);
    }
  }

  /** Resumption: exactly a task that is marked suspended, is not the caller and is not ready
      yet becomes ready, last of its priority; the caller alone is marked anew; the caller is
      switched away exactly when that happened and the resumed task outranks it. */
  ghost predicate IsResumed(k: Kernel, a: After, id: nat)
    requires Shape(k) && id < |k.tasks|
  {
    var woken := id != k.current && k.tasks[id].state == Suspended && !InReady(k, id);
    && |a.k.tasks| == |k.tasks| && a.k.waiting == k.waiting && a.k.live == k.live && a.k.current == k.current
    && a.k.tasks == (if woken then k.tasks[k.current := k.tasks[k.current].(state := Ready)] else k.tasks)
    && |a.k.ready| == PRIORITIES
    && (forall t :: 0 <= t < |k.tasks| ==> (InReady(a.k, t) <==> InReady(k, t) || (t == id && woken)))
    && a.ending == if woken && k.tasks[id].priority < k.tasks[k.current].priority then ExecuteContextSwitch else Leave
  }

  lemma ResumeMeans(k: Kernel, id: nat)
    requires Sound(k) && Legal(k, Resume(id))
    ensures IsResumed(k, ResumeBody(k, id), id)
  {
    hide WaitOk, NoneLost, IdleOk, Waitable, RingOk;
    if !InReady(k, id) {
      ReadyListHasRoom(k, id);
    }
  }

  /** Creation: fails exactly without a routine or with a full pool and then changes nothing;
      otherwise the least free id is alive with the given priority and a fresh frame, ready
      exactly when not created suspended, and no other task notices. The caller is switched
      away exactly when a started kernel got a ready task that outranks it. */
  ghost predicate IsCreated(k: Kernel, a: After, hasRoutine: bool, priority: Priority, suspended: bool)
    requires Shape(k)
  {
    if !hasRoutine || |Live(k.live)| == |k.live| then a == After(k, Leave)
    else
      var id := LeastFree(k.live);
      && id < |k.tasks| && OthersSame(k, a.k, id) && a.k.waiting == k.waiting
      && a.k.live == k.live[id := true] && |a.k.ready| == PRIORITIES
      && a.k.tasks[id] == k.tasks[id].(sp := k.tasks[id].frame, priority := priority,
                                       state := if suspended then Suspended else Ready)
      && (InReady(a.k, id) <==> !suspended)
      && k.current < |a.k.tasks|
      && a.ending == if k.started && !suspended && priority < a.k.tasks[k.current].priority
                     then ExecuteContextSwitch else Leave
  }

  lemma CreateMeans(k: Kernel, hasRoutine: bool, priority: Priority, suspended: bool)
    requires Sound(k)
    ensures IsCreated(k, CreateBody(k, hasRoutine, priority, suspended), hasRoutine, priority, suspended)
  {
    hide ReadyOk, WaitOk, NoneLost, IdleOk, Waitable, RingOk, Live, OthersSame, InReady, AddReady;
    CreateFailsExactly(k, hasRoutine, priority, suspended);
    FullExactlyWhenAllLive(k.live);
    if hasRoutine && LeastFree(k.live) < |k.live| {
      CreateSparesOthers(k, priority, suspended);
    }
  }

  lemma CreateSparesOthers(k: Kernel, priority: Priority, suspended: bool)
    requires Sound(k) && LeastFree(k.live) < |k.live|
    ensures var a := CreateBody(k, true, priority, suspended);
            var id := LeastFree(k.live);
            && OthersSame(k, a.k, id) && a.k.waiting == k.waiting && |a.k.ready| == PRIORITIES
            && a.k.tasks[id] == k.tasks[id].(sp := k.tasks[id].frame, priority := priority,
                                             state := if suspended then Suspended else Ready)
            && a.ending == if k.started && !suspended && priority < a.k.tasks[k.current].priority
                           then ExecuteContextSwitch else Leave
  {
    hide WaitOk, NoneLost, IdleOk, Waitable, RingOk, Live, WaitsIn;
    var id := LeastFree(k.live);
    var made := Made(k, priority, suspended);
    MadeIsFresh(k, priority, suspended);
    ReadyListHasRoom(made, id);
    var r := if suspended then made else AddReady(made, id).value;
    forall t | 0 <= t < |k.tasks| && t != id ensures SameTask(k, r, t) {
      assert made.tasks[t] == k.tasks[t];
    }
  }

  /** The record of a new task, before it is put on a list. */
  function Made(k: Kernel, priority: Priority, suspended: bool): Kernel
    requires Shape(k) && LeastFree(k.live) < |k.live|
  {
    var id := LeastFree(k.live);
    With(k, id, k.tasks[id].(sp := k.tasks[id].frame, priority := priority,
                             state := if suspended then Suspended else Ready)).(live := k.live[id := true])
  }

  lemma MadeIsFresh(k: Kernel, priority: Priority, suspended: bool)
    requires Sound(k) && LeastFree(k.live) < |k.live|
    ensures var made := Made(k, priority, suspended);
            Shape(made) && ReadyOk(made) && !InReady(made, LeastFree(k.live))
  {
    hide WaitOk, NoneLost, IdleOk;
  }

  /** Parking: the caller goes from the ready list to a free slot of the wait list with its
      conditions, marked so, and no other task notices. */
  ghost predicate IsParked(k: Kernel, r: Kernel, conditions: Conditions)
    requires Shape(k)
  {
    && OthersSame(k, r, k.current) && r.live == k.live
    && |r.ready| == PRIORITIES && !InReady(r, k.current)
    && (exists i :: 0 <= i < |k.waiting| && k.waiting[i] == None
                    && r.waiting == k.waiting[i := Some(WaitItem(k.current, conditions))])
    && r.tasks == k.tasks[k.current := k.tasks[k.current].(state := Scheduler.Waiting)]
  }

  lemma ParkMeans(k: Kernel, conditions: Conditions)
    requires Sound(k) && InReady(k, k.current) && Waitable(k.world, conditions)
    ensures Park(k, conditions).Some? && IsParked(k, Park(k, conditions).value, conditions)
  {
    ParkAlwaysFindsRoom(k, conditions);
    var item := WaitItem(k.current, conditions);
    var r := Park(k, conditions).value;
    var i :| 0 <= i < |k.waiting| && k.waiting[i] == None && r.waiting == k.waiting[i := Some(item)];
    hide WaitOk, NoneLost, IdleOk, Waitable, RingOk;
    forall t | 0 <= t < |k.tasks| && t != k.current ensures SameTask(k, r, t) {
      WaitsInAfterPut(k.waiting, i, item, t);
    }
  }

  // ---- the order of the lists ------------------------------------------------

  /** A task has joined the list of priority `p` at its end; no other list has changed, and it is
      the same task's turn. */
  ghost predicate JoinsList(ready: seq<TaskRing>, after: seq<TaskRing>, p: nat, t: nat) {
    && p < |ready| && t !in ready[p].tasks
    && after == ready[p := TaskRing(ready[p].tasks + [t], ready[p].at)]
  }

  /** A task has left the list of priority `p` if it was on it: the others are served in the same
      order, the next one first if it was its turn. No other list has changed. */
  ghost predicate LeavesList(ready: seq<TaskRing>, after: seq<TaskRing>, p: nat, t: nat) {
    && p < |ready| == |after| && (forall q :: 0 <= q < |ready| && q != p ==> after[q] == ready[q])
    && ready[p].at <= |ready[p].tasks| && after[p].at <= |after[p].tasks|
    && if t in ready[p].tasks
       then
         && t in Turn(ready[p]) && Turn(after[p]) == Rings.Delete(Turn(ready[p]), Rings.IndexOf(Turn(ready[p]), t))
         && after[p].tasks == Rings.Delete(ready[p].tasks, Rings.IndexOf(ready[p].tasks, t))
       else after[p] == ready[p]
  }

  /** A caller has gone to the least free slot of the wait list. */
  ghost predicate TakesLeastSlot(waiting: seq<Option<WaitItem>>, after: seq<Option<WaitItem>>, item: WaitItem) {
    exists i :: 0 <= i < |waiting| && waiting[i] == None && after == waiting[i := Some(item)]
                && forall j :: 0 <= j < i ==> waiting[j].Some?
  }

  /** What each call does to the order of the lists. */
  ghost predicate OrderAfter(k: Kernel, call: Call, a: After)
    requires Shape(k) && Legal(k, call)
  {
    match call
    case CreateTask(hasRoutine, priority, suspended) =>
      if hasRoutine && !suspended && LeastFree(k.live) < |k.live|
      then JoinsList(k.ready, a.k.ready, priority, LeastFree(k.live))
      else a.k.ready == k.ready
    case Resume(id) =>
      if id != k.current && k.tasks[id].state == Suspended && !InReady(k, id)
      then JoinsList(k.ready, a.k.ready, k.tasks[id].priority, id)
      else a.k.ready == k.ready
    case Terminate(id) => LeavesList(k.ready, a.k.ready, k.tasks[id].priority, id)
    case Suspend(id) => LeavesList(k.ready, a.k.ready, k.tasks[id].priority, id)
    case Start => a.k == k.(started := true) && a.ending == LoadNext
    case Other => a.k == k && a.ending == Leave
    case _ =>
      && LeavesList(k.ready, a.k.ready, k.tasks[k.current].priority, k.current)
      && TakesLeastSlot(k.waiting, a.k.waiting, WaitItem(k.current, ConditionsOf(call, k.now)))
  }

  /** Every call keeps the order of service of all tasks that it does not move: a task made ready
      goes to the end of the list of its priority, one that stops being ready hands its turn to
      the next, and one that goes to wait takes the least free slot. */
  lemma CallsKeepOrder(k: Kernel, call: Call)
    requires Sound(k) && InReady(k, k.current) && Legal(k, call)
    ensures OrderAfter(k, call, Body(k, call))
  {
    match call {
      case CreateTask(_, _, _) => CreatedJoins(k, call);
      case Resume(id) => ResumedJoins(k, id);
      case Terminate(id) => RemovedLeaves(k, id);
      case Suspend(id) => RemovedLeaves(k, id);
      case Sleep(_) => ParkedLeaves(k, call);
      case Wait(_) => ParkedLeaves(k, call);
      case _ =>
    }
    hide Sound, Waitable, RingOk, OrderAfter;
  }

  lemma CreatedJoins(k: Kernel, call: Call)
    requires Sound(k) && call.CreateTask?
    ensures OrderAfter(k, call, Body(k, call))
  {
    hide WaitOk, NoneLost, IdleOk, Waitable, RingOk, WaitsIn;
    var id := LeastFree(k.live);
    if call.hasRoutine && id < |k.live| && !call.suspended {
      var made := Made(k, call.priority, false);
      MadeIsFresh(k, call.priority, false);
      ReadyListHasRoom(made, id);
      assert Body(k, call).k.ready == AddReady(made, id).value.ready;
    }
  }

  lemma ResumedJoins(k: Kernel, id: nat)
    requires Sound(k) && Legal(k, Resume(id))
    ensures OrderAfter(k, Resume(id), Body(k, Resume(id)))
  {
    hide WaitOk, NoneLost, IdleOk, Waitable, RingOk, WaitsIn;
    if !InReady(k, id) {
      ReadyListHasRoom(k, id);
    }
  }

  lemma RemovedLeaves(k: Kernel, id: nat)
    requires Shape(k) && id < |k.tasks|
    ensures LeavesList(k.ready, RemoveReady(k, id).ready, k.tasks[id].priority, id)
  {
    var p := k.tasks[id].priority;
    if id in k.ready[p].tasks {
      RemoveKeepsTurn(k.ready[p], id);
    }
    hide Waitable;
  }

  lemma ParkedLeaves(k: Kernel, call: Call)
    requires Sound(k) && InReady(k, k.current) && Legal(k, call) && (call.Sleep? || call.Wait?)
    ensures OrderAfter(k, call, Body(k, call))
  {
    hide Sound, Waitable, RingOk, LeavesList, TakesLeastSlot, InReady, AddWait;
    SoundHasShape(k);
    var conditions := ConditionsOf(call, k.now);
    SameNeeds(k.world, call, k.now);
    ParkAlwaysFindsRoom(k, conditions);
    RemovedLeaves(k, k.current);
    LeastSlotTaken(k.waiting, WaitItem(k.current, conditions));
  }

  lemma SameNeeds(w: World, call: Call, now: Word)
    requires call.Sleep? || (call.Wait? && call.conditions.WaitForObj? && Waitable(w, call.conditions))
    ensures Waitable(w, ConditionsOf(call, now))
  {
  }

  lemma LeastSlotTaken(waiting: seq<Option<WaitItem>>, item: WaitItem)
    ensures AddWait(waiting, item).Some? ==> TakesLeastSlot(waiting, AddWait(waiting, item).value, item)
  {
  }
}
