/** The critical section as code that tasks of the kernel run: every run of that system is a run of
    the section protocol (source/kernel.cpp, `critical_section::enter` and `leave`). */
module SectionInKernel {
  import opened Slots
  import opened ReadyRings
  import opened Handles
  import opened SignalWorld
  import opened WaitConditions
  import opened Scheduler
  import opened KernelMachine
  import opened KernelSafety
  import opened KernelRuns
  import opened KernelContexts
  import opened KernelWaits
  import opened KernelWaitRuns
  import opened KernelCalls
  import opened KernelPriorities
  import Protocol = SectionProtocol

  type Section = Protocol.Section

  type Place = Protocol.Place

  /** The kernel, the section's counter, where each task is in the section's code, and the answer
      each task held when it last went to wait in `enter`. */
  datatype System = System(m: Machine, lockCount: Word, places: seq<Place>, before: seq<WaitResult>)

  /** A step of the kernel that is not the work of a region of the section's code, or a step of
      that code by the running task. `Arrive` and `Spin` are local; the others are the work of a
      locked region. */
  datatype Move =
    | ByKernel(step: Step)
    | Arrive
    | Spin
    | Test
    | Register
    | Return
    | LeaveSection

  /** The wait in `enter`: on the section's event alone, without a time limit. */
  predicate ForSection(c: Section, cond: Conditions) {
    cond.WaitForObj? && cond.signals == [c.event] && !cond.waitForAll && cond.waitForever
  }

  /** The section's event is private to it. */
  predicate Mentions(c: Section, cond: Conditions) {
    cond.WaitForObj? && c.event in cond.signals
  }

  predicate Free(p: Place) {
    p.Outside? || p.Inside?
  }

  /** In the code of `enter`, and not waiting. */
  predicate AtCode(p: Place) {
    p.LoopTop? || p.FoundTaken? || p.Resumed?
  }

  /** The calls a task may be in. Outside and inside the section its code is its own, but leaves
      the section's event alone and ends no task that uses the section; in `enter` it is given. */
  predicate Allowed(c: Section, s: System, call: Call)
    requires s.m.k.current < |s.places|
  {
    match s.places[s.m.k.current]
    case LoopTop(_) => call == Other
    case Resumed(_) => call == Other
    case FoundTaken(i) => i >= c.spinLock as nat && call.Wait? && ForSection(c, call.conditions)
    case Blocked => false
    case _ =>
      && (call.Wait? ==> !Mentions(c, call.conditions))
      && (call.Terminate? ==> call.id < |s.places| && s.places[call.id].Outside?)
  }

  ghost predicate Enabled(c: Section, s: System, move: Move) {
    && Shape(s.m.k) && |s.places| == |s.before| == |s.m.k.tasks|
    && var p := s.places[s.m.k.current];
    match move
    case ByKernel(step) =>
      && KernelMachine.Enabled(s.m, step)
      && (match step
          case Enter(call) => Allowed(c, s, call)
          case Run => Free(p) && Allowed(c, s, s.m.mode.call)
          case Outside(world) =>
            && Protocol.EventAlive(s.m.k.world, c.event) && Protocol.EventAlive(world, c.event)
            && world.events[IdOf(c.event)] == s.m.k.world.events[IdOf(c.event)]
          case _ => true)
    case Arrive => s.m.mode == Unlocked && p.Outside?
    case Spin => s.m.mode == Unlocked && p.FoundTaken? && p.i < c.spinLock as nat
    case Test => s.m.mode == Locked(Other) && p.LoopTop?
    case Return => s.m.mode == Locked(Other) && p.Resumed?
    case Register =>
      && s.m.mode.Locked? && s.m.mode.call.Wait? && Legal(s.m.k, s.m.mode.call)
      && ForSection(c, s.m.mode.call.conditions) && p.FoundTaken? && p.i >= c.spinLock as nat
    case LeaveSection => s.m.mode == Locked(Other) && p.Inside? && Protocol.EventAlive(s.m.k.world, c.event)
  }

  /** A task that waited for the section and is off the wait list is on its way again. */
  function Followed(places: seq<Place>, waiting: seq<Option<WaitItem>>, byTick: bool): (r: seq<Place>)
    ensures |r| == |places|
    ensures forall t :: 0 <= t < |r| ==>
              r[t] == if places[t].Blocked? && !WaitsIn(waiting, t) then Protocol.Resumed(byTick) else places[t]
  {
    seq(|places|, t requires 0 <= t < |places| =>
      if places[t].Blocked? && !WaitsIn(waiting, t) then Protocol.Resumed(byTick) else places[t])
  }

  function With(s: System, p: Place): System
    requires s.m.k.current < |s.places|
  {
    s.(places := s.places[s.m.k.current := p])
  }

  /** The kernel has gone on, and the blocked tasks it let go with it. */
  function Moved(s: System, m: Machine, byTick: bool): System {
    s.(m := m, places := Followed(s.places, m.k.waiting, byTick))
  }

  function Next(c: Section, s: System, move: Move): (r: System)
    requires Enabled(c, s, move)
  {
    var t := s.m.k.current;
    match move
    case ByKernel(step) =>
      Moved(s, KernelMachine.Next(s.m, step), step == TickStep)
    case Arrive => With(s, Protocol.LoopTop(0))
    case Spin => With(s, Protocol.LoopTop(s.places[t].i + 1))
    case Test =>
      var (count, taken) := Protocol.Tested(s.lockCount);
      var p := s.places[t];
      With(s, if taken then Protocol.Inside else Protocol.FoundTaken(p.i))
        .(m := KernelMachine.Next(s.m, Run), lockCount := count)
    case Return => With(s, Protocol.LoopTop(0)).(m := KernelMachine.Next(s.m, Run))
    case Register =>
      With(s, Protocol.Blocked)
        .(m := KernelMachine.Next(s.m, Run), before := s.before[t := s.m.k.tasks[t].result])
    case LeaveSection =>
      var m := KernelMachine.Next(s.m, Run);
      var (count, world) := Protocol.Left(s.lockCount, s.m.k.world, c.event);
      With(s, Protocol.Outside).(m := m.(k := m.k.(world := world)), lockCount := count)
  }

  // ---- the system as the protocol sees it ------------------------------------

  /** A task that is neither ready nor waiting. */
  ghost predicate IsSuspendedTask(k: Kernel, t: nat)
    requires |k.ready| == PRIORITIES && t < |k.tasks| == |k.live|
  {
    k.live[t] && !InReady(k, t) && !WaitsIn(k.waiting, t)
  }

  ghost function Suspensions(k: Kernel): (s: seq<bool>)
    requires |k.ready| == PRIORITIES && |k.tasks| == |k.live|
    ensures |s| == |k.tasks| && forall t :: 0 <= t < |s| ==> s[t] == IsSuspendedTask(k, t)
  {
    seq(|k.tasks|, t requires 0 <= t < |k.tasks| => IsSuspendedTask(k, t))
  }

  ghost function Abstract(s: System): Protocol.State
    requires Shape(s.m.k)
  {
    Protocol.State(s.lockCount, s.m.k.world, s.places, Suspensions(s.m.k))
  }

  // ---- what every move keeps ---------------------------------------------------

  /** The slots of the section's waiters are those of the blocked tasks, and no other slot
      mentions its event. */
  ghost predicate SlotsFit(c: Section, waiting: seq<Option<WaitItem>>, places: seq<Place>) {
    forall i :: 0 <= i < |waiting| && waiting[i].Some? ==>
      && waiting[i].value.task < |places|
      && (places[waiting[i].value.task].Blocked? <==> ForSection(c, waiting[i].value.conditions))
      && (Mentions(c, waiting[i].value.conditions) ==> ForSection(c, waiting[i].value.conditions))
  }

  ghost predicate PlacesFit(waiting: seq<Option<WaitItem>>, places: seq<Place>) {
    forall t :: 0 <= t < |places| ==>
      && (places[t].Blocked? ==> WaitsIn(waiting, t))
      && (AtCode(places[t]) ==> !WaitsIn(waiting, t))
  }

  ghost predicate LiveFit(live: seq<bool>, places: seq<Place>) {
    |live| == |places| && forall t :: 0 <= t < |places| && !live[t] ==> places[t].Outside?
  }

  /** A woken task has been told that its object is set; a waiting or withdrawn one still holds
      its earlier answer. */
  ghost predicate AnswersFit(tasks: seq<Task>, places: seq<Place>, before: seq<WaitResult>) {
    && |tasks| == |places| == |before|
    && forall t :: 0 <= t < |places| ==> AnswerFits(tasks[t], places[t], before[t])
  }

  predicate AnswerFits(task: Task, p: Place, before: WaitResult) {
    match p
    case Blocked => task.result == before
    case Resumed(woken) => task.result == if woken then ObjectSet else before
    case _ => true
  }

  ghost predicate Inv(c: Section, s: System) {
    && KernelMachine.Inv(s.m)
    && Protocol.EventAlive(s.m.k.world, c.event)
    && SlotsFit(c, s.m.k.waiting, s.places) && PlacesFit(s.m.k.waiting, s.places)
    && LiveFit(s.m.k.live, s.places) && AnswersFit(s.m.k.tasks, s.places, s.before)
  }

  // ---- steps that leave the lists to the section's tasks as they are -----------

  /** As far as the section is concerned nothing has changed. */
  ghost predicate Alike(k: Kernel, r: Kernel)
    requires Shape(k) && Shape(r)
  {
    && r.world == k.world && r.live == k.live && r.waiting == k.waiting && |r.tasks| == |k.tasks|
    && forall t :: 0 <= t < |k.tasks| ==> r.tasks[t].result == k.tasks[t].result && InReady(r, t) == InReady(k, t)
  }

  lemma AlikeKeepsSystem(c: Section, s: System, m: Machine)
    requires Inv(c, s) && KernelMachine.Inv(m) && Alike(s.m.k, m.k)
    ensures forall byTick :: Followed(s.places, m.k.waiting, byTick) == s.places
    ensures Inv(c, s.(m := m)) && Abstract(s.(m := m)) == Abstract(s)
  {
    hide Waitable, RingOk, ReadyOk, WaitOk, NoneLost, IdleOk, WaitsIn, SlotsFit;
    forall byTick ensures Followed(s.places, m.k.waiting, byTick) == s.places {
    }
    forall t | 0 <= t < |s.m.k.tasks| ensures Suspensions(m.k)[t] == Suspensions(s.m.k)[t] {
    }
  }

  lemma CloseAlike(m: Machine)
    requires KernelMachine.Inv(m) && KernelMachine.Enabled(m, Close)
    ensures KernelMachine.Inv(KernelMachine.Next(m, Close)) && Alike(m.k, KernelMachine.Next(m, Close).k)
  {
    hide Sound, Waitable, RingOk, InReady, CanChoose, SwitchContext, LoadNextTask;
    StepKeepsInv(m, Close);
    CloseOnlyMarks(m);
    CloseKeepsWorld(m);
    SoundHasShape(m.k);
    SoundHasShape(KernelMachine.Next(m, Close).k);
    MarksAreAlike(m.k, KernelMachine.Next(m, Close).k);
  }

  lemma MarksAreAlike(k: Kernel, r: Kernel)
    requires Shape(k) && Shape(r) && OnlyMarks(k, r) && r.world == k.world && r.live == k.live
    ensures Alike(k, r)
  {
    hide Waitable, RingOk, InReady;
    forall t | 0 <= t < |k.tasks| ensures r.tasks[t].result == k.tasks[t].result && InReady(r, t) == InReady(k, t) {
      assert SameAnswer(k, r, t);
    }
  }

  lemma CloseKeepsWorld(m: Machine)
    requires Shape(m.k) && KernelMachine.Enabled(m, Close)
    ensures var r := KernelMachine.Next(m, Close).k; r.world == m.k.world && r.live == m.k.live
  {
    hide Waitable, RingOk, CurrentTask;
  }

  /** The running task is ready, so it is neither waiting nor suspended. */
  lemma RunningTask(c: Section, s: System)
    requires Inv(c, s) && (s.m.mode == Unlocked || s.m.mode.Locked?)
    ensures var t := s.m.k.current;
            && Shape(s.m.k) && t < |s.places| && s.m.k.live[t] && !WaitsIn(s.m.k.waiting, t)
            && InReady(s.m.k, t) && !Suspensions(s.m.k)[t]
  {
    ReadyWaitsNowhere(s.m.k, s.m.k.current);
    hide Waitable, RingOk, ReadyOk, WaitOk, NoneLost, IdleOk, WaitsIn, InReady;
  }

  /** The running task goes from one place to another without waiting before or after. */
  lemma GoesTo(c: Section, s: System, p: Place, m: Machine, lockCount: Word)
    requires Inv(c, s) && (s.m.mode == Unlocked || s.m.mode.Locked?)
    requires s.m.k.current < |s.places| && !s.places[s.m.k.current].Blocked?
    requires !p.Blocked? && !p.Resumed?
    requires KernelMachine.Inv(m) && Alike(s.m.k, m.k)
    ensures var r := With(s, p).(m := m, lockCount := lockCount);
            && Inv(c, r)
            && Abstract(r) == Abstract(s).(places := s.places[s.m.k.current := p], lockCount := lockCount)
  {
    RunningTask(c, s);
    AlikeKeepsSystem(c, s, m);
    hide Waitable, RingOk, Sound, WaitsIn, InReady, ForSection, Mentions;
  }

  lemma OtherIsAlike(m: Machine)
    requires KernelMachine.Inv(m) && m.mode == Locked(Other)
    ensures KernelMachine.Enabled(m, Run)
    ensures var r := KernelMachine.Next(m, Run);
            r == Machine(m.k, Ending(KernelMachine.Leave)) && KernelMachine.Inv(r) && Alike(m.k, r.k)
  {
    StepKeepsInv(m, Run);
    hide Sound, Waitable, RingOk;
    SoundHasShape(m.k);
  }

  // ---- the section's own code ---------------------------------------------------

  /** The path in the protocol from one state to the next. */
  ghost predicate Simulates(c: Section, s: System, r: System, path: seq<Protocol.Step>)
    requires Shape(s.m.k) && Shape(r.m.k)
  {
    Protocol.IsRun(c, Abstract(s), path) && Protocol.After(c, Abstract(s), path) == Abstract(r)
  }

  lemma OneStepPath(c: Section, a: Protocol.State, step: Protocol.Step, b: Protocol.State)
    requires Protocol.Enabled(c, a, step) && Protocol.Next(c, a, step) == b
    ensures Protocol.IsRun(c, a, [step]) && Protocol.After(c, a, [step]) == b
  {
    assert [step][1..] == [];
    assert Protocol.IsRun(c, b, []) && Protocol.After(c, b, []) == b;
  }

  /** `Arrive`, `Spin`, `Test` and `Return` are the steps of those names. */
  lemma CodeSimulated(c: Section, s: System, move: Move) returns (path: seq<Protocol.Step>)
    requires Inv(c, s) && Enabled(c, s, move) && (move.Arrive? || move.Spin? || move.Test? || move.Return?)
    ensures Inv(c, Next(c, s, move)) && Simulates(c, s, Next(c, s, move), path)
  {
    var t := s.m.k.current;
    RunningTask(c, s);
    var r := Next(c, s, move);
    var action := match move
                  case Arrive => Protocol.Arrive
                  case Spin => Protocol.Spin
                  case Test => Protocol.Test
                  case _ => Protocol.Return;
    if move.Test? || move.Return? {
      OtherIsAlike(s.m);
    }
    GoesTo(c, s, r.places[t], r.m, r.lockCount);
    path := [Protocol.ByTask(t, action)];
    hide Waitable, RingOk, Sound, WaitsIn, InReady, SlotsFit, PlacesFit, LiveFit, AnswersFit, Suspensions;
    OneStepPath(c, Abstract(s), path[0], Abstract(r));
  }

  lemma SetEventKeepsOthers(w: World, h: Word)
    requires Protocol.EventAlive(w, h)
    ensures var r := Protocol.SetEvent(w, h); forall c :: Waitable(w, c) <==> Waitable(r, c)
  {
    var r := Protocol.SetEvent(w, h);
    assert forall g :: Alive(w, g) <==> Alive(r, g);
  }

  lemma LeaveSimulated(c: Section, s: System) returns (path: seq<Protocol.Step>)
    requires Inv(c, s) && Enabled(c, s, LeaveSection)
    ensures Inv(c, Next(c, s, LeaveSection)) && Simulates(c, s, Next(c, s, LeaveSection), path)
  {
    var t := s.m.k.current;
    RunningTask(c, s);
    OtherIsAlike(s.m);
    var r := Next(c, s, LeaveSection);
    var m := KernelMachine.Next(s.m, Run);
    SetEventKeepsOthers(s.m.k.world, c.event);
    GoesTo(c, s, Protocol.Outside, m, r.lockCount);
    WorldKeepsSystem(c, With(s, Protocol.Outside).(m := m, lockCount := r.lockCount), r.m.k.world);
    path := [Protocol.ByTask(t, Protocol.Leave)];
    hide Waitable, RingOk, Sound, WaitsIn, InReady, SlotsFit, PlacesFit, LiveFit, AnswersFit, Suspensions;
    OneStepPath(c, Abstract(s), path[0], Abstract(r));
  }

  /** Other objects, with the section's event alive. */
  lemma WorldKeepsSystem(c: Section, s: System, world: World)
    requires Inv(c, s) && Protocol.EventAlive(world, c.event)
    requires forall c :: Waitable(s.m.k.world, c) <==> Waitable(world, c)
    ensures var r := s.(m := s.m.(k := s.m.k.(world := world)));
            Inv(c, r) && Abstract(r) == Abstract(s).(world := world)
  {
    var r := s.(m := s.m.(k := s.m.k.(world := world)));
    StepKeepsInv(s.m, Step.Outside(world));
    assert Suspensions(r.m.k) == Suspensions(s.m.k);
    hide RingOk, Sound, WaitsIn, SlotsFit, PlacesFit, LiveFit, AnswersFit;
  }

  // ---- the kernel's own regions ----------------------------------------------------
  //
  // `Ran` says that the running task, outside or inside the section, has had a region done.

  ghost predicate Ran(c: Section, s: System, m: Machine, call: Call) {
    && Shape(s.m.k) && |s.places| == |s.before| == |s.m.k.tasks|
    && s.m.mode == Locked(call) && KernelMachine.Inv(m) && Legal(s.m.k, call)
    && m.mode.Ending? && KernelMachine.After(m.k, m.mode.ending) == Body(s.m.k, call)
    && Allowed(c, s, call) && Free(s.places[s.m.k.current])
  }

  /** Slots are freed, none is filled. */
  ghost predicate OnlyFreed(waiting: seq<Option<WaitItem>>, r: seq<Option<WaitItem>>) {
    |r| == |waiting| && forall i :: 0 <= i < |r| ==> r[i] == waiting[i] || r[i] == None
  }

  lemma FreedWaitsNot(waiting: seq<Option<WaitItem>>, r: seq<Option<WaitItem>>, t: nat)
    requires OnlyFreed(waiting, r) && WaitsIn(r, t)
    ensures WaitsIn(waiting, t)
  {
    var i :| 0 <= i < |r| && r[i].Some? && r[i].value.task == t;
    assert waiting[i] == r[i];
  }

  /** What a kernel step that frees slots may do to the answers of the section's tasks. */
  ghost predicate AnswersFollow(k: Kernel, r: Kernel, places: seq<Place>, byTick: bool) {
    && |r.tasks| == |k.tasks| == |places|
    && forall t :: 0 <= t < |places| && !Free(places[t]) ==>
         r.tasks[t].result ==
           if places[t].Blocked? && !WaitsIn(r.waiting, t) && byTick then ObjectSet else k.tasks[t].result
  }

  lemma FollowKeepsSystem(c: Section, s: System, m: Machine, byTick: bool)
    requires Inv(c, s) && KernelMachine.Inv(m) && Protocol.EventAlive(m.k.world, c.event)
    requires OnlyFreed(s.m.k.waiting, m.k.waiting) && AnswersFollow(s.m.k, m.k, s.places, byTick)
    requires LiveFit(m.k.live, s.places)
    ensures Inv(c, Moved(s, m, byTick))
  {
    hide Waitable, RingOk, KernelMachine.Inv, ForSection, Mentions, WaitsIn;
    var places := Followed(s.places, m.k.waiting, byTick);
    forall i | 0 <= i < |m.k.waiting| && m.k.waiting[i].Some?
      ensures places[m.k.waiting[i].value.task] == s.places[m.k.waiting[i].value.task]
    {
      SlotWaits(m.k.waiting, i);
      assert m.k.waiting[i] == s.m.k.waiting[i];
    }
    forall t | 0 <= t < |places| && WaitsIn(m.k.waiting, t) ensures WaitsIn(s.m.k.waiting, t) {
      FreedWaitsNot(s.m.k.waiting, m.k.waiting, t);
    }
    FollowedAnswers(s, m, byTick);
  }

  lemma SlotWaits(waiting: seq<Option<WaitItem>>, i: nat)
    requires i < |waiting| && waiting[i].Some?
    ensures WaitsIn(waiting, waiting[i].value.task)
  {
  }

  lemma FollowedAnswers(s: System, m: Machine, byTick: bool)
    requires AnswersFit(s.m.k.tasks, s.places, s.before) && AnswersFollow(s.m.k, m.k, s.places, byTick)
    ensures AnswersFit(m.k.tasks, Followed(s.places, m.k.waiting, byTick), s.before)
  {
    hide WaitsIn;
    var places := Followed(s.places, m.k.waiting, byTick);
    forall t | 0 <= t < |places| ensures AnswerFits(m.k.tasks[t], places[t], s.before[t]) {
      assert AnswerFits(s.m.k.tasks[t], s.places[t], s.before[t]);
    }
  }

  /** No other task's place depends on a step that no other task notices. */
  lemma OthersStay(k: Kernel, r: Kernel, id: nat, places: seq<Place>)
    requires Shape(k) && |places| == |k.tasks| && OthersSame(k, r, id) && |r.ready| == PRIORITIES
    requires |r.live| == |r.tasks| && PlacesFit(k.waiting, places)
    ensures forall t :: 0 <= t < |places| && t != id ==>
              && Followed(places, r.waiting, false)[t] == places[t]
              && Suspensions(r)[t] == Suspensions(k)[t]
  {
    hide Waitable, RingOk, WaitsIn, InReady;
    forall t | 0 <= t < |places| && t != id
      ensures Followed(places, r.waiting, false)[t] == places[t] && Suspensions(r)[t] == Suspensions(k)[t]
    {
      assert SameTask(k, r, t);
    }
  }

  lemma NotReadyOffLists(r: Kernel, id: nat)
    requires OnNoList(r, id) && |r.ready| == PRIORITIES && id < |r.tasks|
    ensures !InReady(r, id) && !WaitsIn(r.waiting, id)
  {
  }

  lemma SuspendSimulated(c: Section, s: System, m: Machine, id: nat) returns (path: seq<Protocol.Step>)
    requires Inv(c, s) && Ran(c, s, m, Suspend(id))
    ensures Inv(c, Moved(s, m, false)) && Simulates(c, s, Moved(s, m, false), path)
  {
    var k, r := s.m.k, Moved(s, m, false);
    hide Waitable, RingOk, WaitsIn, InReady, SlotsFit, OnNoList, OthersSame, Sound, SuspendBody, ForSection;
    SoundHasShape(r.m.k);
    SoundHasShape(k);
    SuspendMeans(k, id);
    NotReadyOffLists(r.m.k, id);
    OthersStay(k, r.m.k, id, s.places);
    FreedBySuspension(k, id);
    OthersKeepWorld(k, r.m.k, id);
    FollowKeepsSystem(c, s, r.m, false);
    path := [Protocol.Suspend(id)];
    assert Suspensions(r.m.k) == Suspensions(k)[id := true];
    assert r.places == s.places[id := if s.places[id].Blocked? then Protocol.Resumed(false) else s.places[id]];
    OneStepPath(c, Abstract(s), path[0], Abstract(r));
  }

  lemma OthersKeepWorld(k: Kernel, r: Kernel, id: nat)
    requires Shape(k) && OthersSame(k, r, id)
    ensures r.world == k.world && r.current == k.current && |r.tasks| == |k.tasks|
  {
  }

  lemma FreedBySuspension(k: Kernel, id: nat)
    requires Shape(k) && id < |k.tasks|
    ensures OnlyFreed(k.waiting, SuspendBody(k, id).k.waiting)
    ensures OnlyFreed(k.waiting, TerminateBody(k, id).k.waiting)
  {
    hide Waitable, RingOk;
  }

  lemma TerminateSimulated(c: Section, s: System, m: Machine, id: nat) returns (path: seq<Protocol.Step>)
    requires Inv(c, s) && Ran(c, s, m, Terminate(id))
    ensures Inv(c, Moved(s, m, false)) && Simulates(c, s, Moved(s, m, false), path)
  {
    var k, r := s.m.k, Moved(s, m, false);
    TerminateMeans(k, id);
    OthersStay(k, r.m.k, id, s.places);
    FreedBySuspension(k, id);
    OthersAnswer(k, r.m.k, id, s.places);
    hide Waitable, RingOk, KernelMachine.Inv, WaitsIn, InReady, SlotsFit, PlacesFit, OnNoList, OthersSame, Sound;
    SoundHasShape(r.m.k);
    FollowKeepsSystem(c, s, r.m, false);
    path := [Protocol.Resume(id)];
    assert Suspensions(r.m.k) == Suspensions(k)[id := false];
    assert r.places == s.places;
    OneStepPath(c, Abstract(s), path[0], Abstract(r));
  }

  lemma OthersAnswer(k: Kernel, r: Kernel, id: nat, places: seq<Place>)
    requires Shape(k) && |places| == |k.tasks| && id < |places| && OthersSame(k, r, id) && Free(places[id])
    requires |r.live| == |r.tasks| && LiveFit(k.live, places) && places[id].Outside?
    ensures AnswersFollow(k, r, places, false) && LiveFit(r.live, places)
  {
    hide Waitable, RingOk, WaitsIn, InReady;
    forall t | 0 <= t < |places| && t != id ensures r.tasks[t] == k.tasks[t] && r.live[t] == k.live[t] {
      assert SameTask(k, r, t);
    }
  }

  lemma ResumeSimulated(c: Section, s: System, m: Machine, id: nat) returns (path: seq<Protocol.Step>)
    requires Inv(c, s) && Ran(c, s, m, Resume(id))
    ensures Inv(c, Moved(s, m, false)) && Simulates(c, s, Moved(s, m, false), path)
  {
    var k, r := s.m.k, Moved(s, m, false);
    ResumeMeans(k, id);
    ResumedSuspensions(s.m.k, m.k, id);
    hide Waitable, RingOk, KernelMachine.Inv, WaitsIn, InReady, SlotsFit, PlacesFit, IsResumed, Sound;
    SoundHasShape(r.m.k);
    FollowKeepsSystem(c, s, r.m, false);
    path := [Protocol.Resume(id)];
    assert r.places == s.places;
    OneStepPath(c, Abstract(s), path[0], Abstract(r));
  }

  /** After a resumption the task is not suspended, whether the call did anything or not. */
  lemma ResumedSuspensions(k: Kernel, r: Kernel, id: nat)
    requires Sound(k) && Legal(k, Resume(id)) && InReady(k, k.current) && r == ResumeBody(k, id).k
    ensures |r.tasks| == |k.tasks| == |r.live| && |r.ready| == PRIORITIES && |k.ready| == PRIORITIES
    ensures id < |k.tasks| == |k.live|
    ensures r.waiting == k.waiting && r.live == k.live && r.world == k.world
    ensures forall t :: 0 <= t < |k.tasks| ==> r.tasks[t].result == k.tasks[t].result
    ensures Suspensions(r) == Suspensions(k)[id := false]
  {
    ResumeMeans(k, id);
    ResumeKeepsWorld(k, id);
    hide Waitable, RingOk, ReadyOk, IdleOk, WaitsIn;
    forall t | 0 <= t < |k.tasks| ensures IsSuspendedTask(r, t) == (IsSuspendedTask(k, t) && t != id) {
      if WaitsIn(k.waiting, t) {
        WaiterIsMarked(k, t);
      }
    }
  }

  lemma WaiterIsMarked(k: Kernel, t: nat)
    requires Sound(k) && t < |k.tasks| && WaitsIn(k.waiting, t)
    ensures k.tasks[t].state == Scheduler.Waiting
  {
    hide Waitable, RingOk, ReadyOk, IdleOk, NoneLost;
  }

  lemma ResumeKeepsWorld(k: Kernel, id: nat)
    requires Shape(k) && id < |k.tasks|
    ensures ResumeBody(k, id).k.world == k.world
  {
    hide Waitable, RingOk;
  }

  lemma CreateSimulated(c: Section, s: System, m: Machine, call: Call) returns (path: seq<Protocol.Step>)
    requires Inv(c, s) && Ran(c, s, m, call) && call.CreateTask?
    ensures Inv(c, Moved(s, m, false)) && Simulates(c, s, Moved(s, m, false), path)
  {
    var k, r := s.m.k, Moved(s, m, false);
    hide Sound, Waitable, RingOk, WaitsIn, InReady, SlotsFit, PlacesFit, OthersSame, Live, CreateBody, ForSection;
    SoundHasShape(r.m.k);
    SoundHasShape(k);
    CreateMeans(k, call.hasRoutine, call.priority, call.suspended);
    FullExactlyWhenAllLive(k.live);
    if !call.hasRoutine || LeastFree(k.live) == |k.live| {
      RegionChangesNothing(c, s, m, call);
      path := [];
    } else {
      var id := LeastFree(k.live);
      CreatedSuspensions(s, id, r.m.k, call.suspended);
      OthersStay(k, r.m.k, id, s.places);
      OthersKeepWorld(k, r.m.k, id);
      FollowKeepsSystem(c, s, r.m, false);
      assert r.places == s.places;
      if call.suspended {
        path := [Protocol.Suspend(id)];
        OneStepPath(c, Abstract(s), path[0], Abstract(r));
      } else {
        path := [];
        assert Abstract(r) == Abstract(s);
      }
    }
  }

  /** A new task's id was dead, so it was neither suspended nor waiting nor using the section. */
  lemma CreatedSuspensions(s: System, id: nat, r: Kernel, suspended: bool)
    requires KernelMachine.Inv(s.m) && id < |s.m.k.tasks| && !s.m.k.live[id] && OthersSame(s.m.k, r, id)
    requires LiveFit(s.m.k.live, s.places) && |s.places| == |s.m.k.tasks|
    requires r.waiting == s.m.k.waiting && r.live == s.m.k.live[id := true]
    requires |r.ready| == PRIORITIES && (InReady(r, id) <==> !suspended)
    ensures s.places[id].Outside? && Suspensions(r) == Suspensions(s.m.k)[id := suspended]
    ensures !Suspensions(s.m.k)[id] && AnswersFollow(s.m.k, r, s.places, false) && LiveFit(r.live, s.places)
  {
    hide Waitable, RingOk, ReadyOk, IdleOk, NoneLost, InReady;
    var k := s.m.k;
    assert !WaitsIn(k.waiting, id);
    hide WaitsIn;
    forall t | 0 <= t < |k.tasks| && t != id ensures IsSuspendedTask(r, t) == IsSuspendedTask(k, t) {
      assert SameTask(k, r, t);
    }
    OthersAnswer(k, r, id, s.places);
  }

  /** A region whose work leaves the kernel as it is. */
  lemma RegionChangesNothing(c: Section, s: System, m: Machine, call: Call)
    requires Inv(c, s) && Ran(c, s, m, call) && m.k == s.m.k.(started := m.k.started)
    ensures Inv(c, Moved(s, m, false)) && Abstract(Moved(s, m, false)) == Abstract(s)
  {
    StartedIsAlike(s.m.k, m.k);
    AlikeKeepsSystem(c, s, m);
    hide Waitable, RingOk, Sound, Body, WaitsIn, SlotsFit, PlacesFit;
  }

  lemma StartedIsAlike(k: Kernel, r: Kernel)
    requires Sound(k) && r == k.(started := r.started)
    ensures Shape(k) && Shape(r) && Alike(k, r)
  {
    hide ReadyOk, WaitOk, NoneLost, IdleOk;
  }

  /** The running task goes to the wait list. */
  lemma ParkedSuspensions(k: Kernel, r: Kernel, cond: Conditions, places: seq<Place>)
    requires Shape(k) && IsParked(k, r, cond) && |places| == |k.tasks| && InReady(k, k.current)
    requires |r.live| == |r.tasks|
    ensures Suspensions(r) == Suspensions(k) && WaitsIn(r.waiting, k.current)
    ensures forall t :: 0 <= t < |k.tasks| && t != k.current ==> WaitsIn(r.waiting, t) == WaitsIn(k.waiting, t)
    ensures forall t :: 0 <= t < |k.tasks| ==> r.tasks[t].result == k.tasks[t].result
  {
    hide Waitable, RingOk, InReady;
    var i :| 0 <= i < |k.waiting| && k.waiting[i] == None
        && r.waiting == k.waiting[i := Some(WaitItem(k.current, cond))];
    SlotWaits(r.waiting, i);
    hide WaitsIn;
    forall t | 0 <= t < |k.tasks|
      ensures IsSuspendedTask(r, t) == IsSuspendedTask(k, t)
      ensures t != k.current ==> WaitsIn(r.waiting, t) == WaitsIn(k.waiting, t)
    {
      if t != k.current {
        assert SameTask(k, r, t);
      }
    }
  }

  /** A task goes to wait at `p`: on the section if that is `Blocked`, else on something else. */
  ghost predicate ParksAt(c: Section, s: System, m: Machine, cond: Conditions, p: Place) {
    && Inv(c, s) && KernelMachine.Inv(m) && s.m.mode.Locked? && Shape(s.m.k) && IsParked(s.m.k, m.k, cond)
    && s.m.k.current < |s.places| && !s.places[s.m.k.current].Blocked?
    && if p.Blocked? then ForSection(c, cond) else Free(p) && !Mentions(c, cond)
  }

  lemma ParkKeepsSlots(c: Section, s: System, m: Machine, cond: Conditions, p: Place)
    requires ParksAt(c, s, m, cond, p)
    ensures SlotsFit(c, m.k.waiting, s.places[s.m.k.current := p])
  {
    var k := s.m.k;
    SlotsOfOthers(c, s);
    hide Waitable, RingOk, KernelMachine.Inv, OthersSame, InReady, PlacesFit, AnswersFit, LiveFit;
    var i :| 0 <= i < |k.waiting| && k.waiting[i] == None
        && m.k.waiting == k.waiting[i := Some(WaitItem(k.current, cond))];
    assert ForSection(c, cond) ==> Mentions(c, cond);
    forall j | 0 <= j < |m.k.waiting| && m.k.waiting[j].Some? && j != i
      ensures m.k.waiting[j] == k.waiting[j] && k.waiting[j].value.task != k.current
    {
    }
  }

  lemma ParkKeepsPlaces(c: Section, s: System, m: Machine, cond: Conditions, p: Place)
    requires ParksAt(c, s, m, cond, p)
    ensures PlacesFit(m.k.waiting, s.places[s.m.k.current := p])
    ensures Followed(s.places[s.m.k.current := p], m.k.waiting, false) == s.places[s.m.k.current := p]
    ensures Suspensions(m.k) == Suspensions(s.m.k) && WaitsIn(m.k.waiting, s.m.k.current)
    ensures |m.k.tasks| == |s.m.k.tasks| == |s.places| == |s.before|
    ensures forall t :: 0 <= t < |m.k.tasks| ==> m.k.tasks[t].result == s.m.k.tasks[t].result
  {
    RunningTask(c, s);
    hide Waitable, RingOk, ReadyOk, WaitOk, NoneLost, IdleOk, ForSection, Mentions, InReady, IsParked, WaitsIn,
        SlotsFit;
    ParkedIsApart(s.m.k, m.k, cond);
    ParkedSuspensions(s.m.k, m.k, cond, s.places);
  }

  lemma ParkedIsApart(k: Kernel, r: Kernel, cond: Conditions)
    requires Shape(k) && IsParked(k, r, cond)
    ensures r.world == k.world && r.live == k.live && |r.tasks| == |k.tasks| == |r.live|
  {
    hide Waitable, RingOk;
  }

  lemma ParkKeepsSystem(c: Section, s: System, m: Machine, cond: Conditions, p: Place)
    requires ParksAt(c, s, m, cond, p)
    ensures s.m.k.current < |s.before|
    ensures var before := s.before[s.m.k.current := s.m.k.tasks[s.m.k.current].result];
            var r := With(s, p).(m := m, before := if p.Blocked? then before else s.before);
            && Inv(c, r) && Followed(r.places, m.k.waiting, false) == r.places && Shape(m.k)
            && Abstract(r) == Abstract(s).(places := s.places[s.m.k.current := p])
  {
    RunningTask(c, s);
    ParkKeepsSlots(c, s, m, cond, p);
    ParkKeepsPlaces(c, s, m, cond, p);
    ParkedIsApart(s.m.k, m.k, cond);
    hide Sound, Waitable, RingOk, ForSection, Mentions, InReady, IsParked, WaitsIn, SlotsFit, PlacesFit;
    SoundHasShape(m.k);
    var t := s.m.k.current;
    var places := s.places[t := p];
    forall u | 0 <= u < |places|
      ensures AnswerFits(m.k.tasks[u], places[u],
              (if p.Blocked? then s.before[t := s.m.k.tasks[t].result] else s.before)[u])
    {
      assert AnswerFits(s.m.k.tasks[u], s.places[u], s.before[u]);
    }
  }

  lemma SlotsOfOthers(c: Section, s: System)
    requires Inv(c, s) && s.m.mode.Locked?
    ensures forall i :: 0 <= i < |s.m.k.waiting| && s.m.k.waiting[i].Some? ==>
              s.m.k.waiting[i].value.task != s.m.k.current
  {
    RunningTask(c, s);
    hide Waitable, RingOk, KernelMachine.Inv;
  }

  /** A sleep or wait outside or inside the section is no step of the protocol. */
  lemma ParkSimulated(c: Section, s: System, m: Machine, call: Call)
    requires Inv(c, s) && Ran(c, s, m, call) && (call.Sleep? || call.Wait?)
    ensures Inv(c, Moved(s, m, false)) && Abstract(Moved(s, m, false)) == Abstract(s)
  {
    RunningTask(c, s);
    var cond := ConditionsOf(call, s.m.k.now);
    ParkMeans(s.m.k, cond);
    var p := s.places[s.m.k.current];
    assert s.places[s.m.k.current := p] == s.places;
    hide Sound, RingOk, IsParked, InReady, WaitsIn, SlotsFit, PlacesFit, LiveFit, AnswersFit, Park, Followed;
    ParkKeepsSystem(c, s, m, cond, p);
  }

  /** The wait in `enter` is the step `Register`. */
  lemma RegisterSimulated(c: Section, s: System) returns (path: seq<Protocol.Step>)
    requires Inv(c, s) && Enabled(c, s, Register)
    ensures Inv(c, Next(c, s, Register)) && Simulates(c, s, Next(c, s, Register), path)
  {
    RunningTask(c, s);
    StepKeepsInv(s.m, Run);
    var m, r := KernelMachine.Next(s.m, Run), Next(c, s, Register);
    var cond := ConditionsOf(s.m.mode.call, s.m.k.now);
    ParkMeans(s.m.k, cond);
    var t := s.m.k.current;
    hide Sound, RingOk, IsParked, InReady, WaitsIn, SlotsFit, PlacesFit, LiveFit, AnswersFit, Park, Followed,
        Suspensions;
    ParkKeepsSystem(c, s, m, cond, Protocol.Blocked);
    path := [Protocol.ByTask(t, Protocol.Register)];
    OneStepPath(c, Abstract(s), path[0], Abstract(r));
  }

  // ---- the tick --------------------------------------------------------------------

  /** Taking signals changes of an event only whether it is set. */
  ghost predicate CellKept(w: World, r: World, h: Word) {
    Protocol.EventAlive(w, h) ==>
      && Protocol.EventAlive(r, h)
      && r.events[IdOf(h)] == Some(w.events[IdOf(h)].value.(isSet := r.events[IdOf(h)].value.isSet))
  }

  lemma ConsumeKeepsCell(w: World, g: Word, h: Word)
    requires Alive(w, g)
    ensures CellKept(w, Consume(w, g), h)
  {
  }

  lemma {:induction false} ConsumeAllKeepsCell(w: World, hs: seq<Word>, h: Word)
    requires forall g :: g in hs ==> Alive(w, g)
    ensures CellKept(w, ConsumeAll(w, hs), h)
    decreases |hs|
  {
    if hs != [] {
      var front := hs[..|hs| - 1];
      ConsumeAllKeepsCell(w, front, h);
      ConsumeKeepsCell(ConsumeAll(w, front), hs[|hs| - 1], h);
    }
  }

  lemma CheckKeepsCell(w: World, cond: Conditions, now: Word, h: Word)
    requires Waitable(w, cond)
    ensures CellKept(w, Check(w, cond, now).world, h)
  {
    if cond.WaitForObj? {
      ConsumeAllKeepsCell(w, cond.signals, h);
      ConsumeKeepsCell(w, cond.signals[0], h);
    }
    hide Consume, ConsumeAll, Alive;
  }

  lemma {:induction false} ScanKeepsCell(w: World, waiting: seq<Option<WaitItem>>, now: Word, n: nat, h: Word)
    requires n <= |waiting|
    requires forall i :: 0 <= i < |waiting| && waiting[i].Some? ==> Waitable(w, waiting[i].value.conditions)
    ensures CellKept(w, ScanWorld(w, waiting, now, n), h)
  {
    if n > 0 {
      ScanKeepsCell(w, waiting, now, n - 1, h);
      if waiting[n - 1].Some? {
        CheckKeepsCell(ScanWorld(w, waiting, now, n - 1), waiting[n - 1].value.conditions, now, h);
      }
    }
    hide Waitable, Check, Alive;
  }

  /** A tick wakes the section's waiter in slot `i`. */
  ghost predicate WakesWaiter(c: Section, k: Kernel, i: nat)
    requires Shape(k) && i < |k.waiting|
  {
    k.waiting[i].Some? && ForSection(c, k.waiting[i].value.conditions) && TickVerdict(k, i).Woken?
  }

  /** The slot of the section's waiter that a tick wakes, if it wakes one. */
  ghost predicate TheWoken(c: Section, k: Kernel, woken: Option<nat>)
    requires Shape(k)
  {
    match woken
    case None => forall i :: 0 <= i < |k.waiting| ==> !WakesWaiter(c, k, i)
    case Some(i) => i < |k.waiting| && WakesWaiter(c, k, i)
  }

  /** The section's waiter wakes exactly as the protocol says, at its turn. */
  lemma WaiterAtTurn(c: Section, k: Kernel, i: nat)
    requires Shape(k) && i < |k.waiting| && k.waiting[i].Some? && ForSection(c, k.waiting[i].value.conditions)
    ensures var w := WorldAtTurn(k, i);
            && Alive(w, c.event)
            && TickVerdict(k, i) == SignalVerdict(w, [c.event], false)
            && (TickVerdict(k, i).Woken? ==> TickVerdict(k, i).result == ObjectSet)
            && ScanWorld(TickTimers(k.world, k.now), k.waiting, k.now, i + 1) == TickVerdict(k, i).world
  {
    var cond := k.waiting[i].value.conditions;
    assert Waitable(WorldAtTurn(k, i), cond);
    assert c.event in cond.signals;
    hide RingOk, Alive;
  }

  /** A tick wakes at most one of them. */
  lemma OneWaiterWakes(c: Section, k: Kernel, i: nat, j: nat)
    requires Shape(k) && i < j < |k.waiting| && Protocol.EventAlive(k.world, c.event)
    requires WakesWaiter(c, k, i) && k.waiting[j].Some? && ForSection(c, k.waiting[j].value.conditions)
    ensures !WakesWaiter(c, k, j)
  {
    WaiterAtTurn(c, k, i);
    OneSettingEndsOneWait(k, c.event, i);
    OneSettingEndsOneWait(k, c.event, j);
    hide RingOk, Waitable, TickVerdict, WorldAtTurn, Takes, Signaled, SignalVerdict;
  }

  lemma TickKeepsWorld(k: Kernel)
    requires Sound(k) && CanChoose(MovedOn(Ticking(k))) && k.interlock == 0
    ensures var r := Tick(k);
            && r.world == ScanWorld(TickTimers(k.world, k.now), k.waiting, k.now, |k.waiting|)
            && r.live == k.live
  {
    TimersAreApart(k);
    TickingKeepsSound(k);
    WholeScan(k.(world := TickTimers(k.world, k.now)), |k.waiting|);
    SwitchKeepsWorld(Ticking(k));
    hide Sound, CanChoose, SwitchIfElapsed, Waitable, RingOk, ScanWorld, Scan;
    SoundHasShape(k);
  }

  lemma SwitchKeepsWorld(k: Kernel)
    requires Shape(k) && CanChoose(MovedOn(k))
    ensures SwitchIfElapsed(k).world == k.world && SwitchIfElapsed(k).live == k.live
  {
    hide Waitable, RingOk, CurrentTask;
  }

  /** A tick of a free kernel readies exactly the tasks whose wait it ends. */
  lemma TickReadies(m: Machine, t: nat)
    requires KernelMachine.Inv(m) && KernelMachine.Enabled(m, TickStep) && m.k.interlock == 0
    requires t < |m.k.tasks| && |m.k.ready| == PRIORITIES
    ensures var r := KernelMachine.Next(m, TickStep).k;
            && |r.tasks| == |m.k.tasks| == |r.live| && |r.ready| == PRIORITIES && r.live == m.k.live
            && (InReady(r, t) <==> InReady(m.k, t) || WokenByTick(m.k, t))
  {
    hide ReadyOk, WaitOk, NoneLost, IdleOk, Waitable, RingOk, Ticking, SwitchIfElapsed, WokenByTick, CanChoose;
    TickKeepsWorld(m.k);
    ReadyAfterTick(m.k, t);
    SwitchOnlyMarks(Ticking(m.k));
    SwitchKeepsWorld(Ticking(m.k));
    TickingKeepsLive(m.k);
  }

  lemma TickingKeepsLive(k: Kernel)
    requires Sound(k)
    ensures Shape(k) && Shape(Ticking(k)) && Ticking(k).live == k.live && |Ticking(k).tasks| == |k.tasks| == |k.live|
  {
    TickingKeepsSound(k);
    hide Ticking, Waitable, RingOk;
  }

  /** What it does to a waiting task. */
  lemma TickOnWaitingTask(m: Machine, i: nat)
    requires KernelMachine.Inv(m) && KernelMachine.Enabled(m, TickStep) && m.k.interlock == 0
    requires i < |m.k.waiting| && m.k.waiting[i].Some?
    ensures var k, r := m.k, KernelMachine.Next(m, TickStep).k;
            var t, v := k.waiting[i].value.task, TickVerdict(k, i);
            && t < |k.tasks| == |r.tasks| == |r.live| && |r.ready| == PRIORITIES && |r.waiting| == |k.waiting|
            && (InReady(r, t) <==> v.Woken?) && (WaitsIn(r.waiting, t) <==> !v.Woken?)
            && r.waiting[i] == (if v.Woken? then r.waiting[i] else k.waiting[i])
            && r.tasks[t].result == (if v.Woken? then v.result else k.tasks[t].result)
  {
    hide ReadyOk, NoneLost, IdleOk, Waitable, RingOk, TickVerdict, CanChoose, Ticking, Tick, TickScanned;
    var k, r := m.k, KernelMachine.Next(m, TickStep).k;
    var t := k.waiting[i].value.task;
    TickReadies(m, t);
    StepOnWaiter(m, TickStep, i);
    TickScans(k);
    WaiterAfterTick(k, i);
    if !TickVerdict(k, i).Woken? {
      SlotWaits(r.waiting, i);
    }
  }

  /** What it does to one task, as far as the section is concerned. */
  lemma TickOnTask(m: Machine, t: nat)
    requires KernelMachine.Inv(m) && KernelMachine.Enabled(m, TickStep) && m.k.interlock == 0
    requires |m.k.live| == |m.k.tasks| && t < |m.k.tasks| && |m.k.ready| == PRIORITIES
    ensures var r := KernelMachine.Next(m, TickStep).k;
            && |r.tasks| == |m.k.tasks| == |r.live| && |r.ready| == PRIORITIES
            && IsSuspendedTask(r, t) == IsSuspendedTask(m.k, t)
            && (!WaitsIn(m.k.waiting, t) ==> !WaitsIn(r.waiting, t) && SameAnswer(m.k, r, t))
  {
    hide ReadyOk, WaitOk, NoneLost, IdleOk, Waitable, RingOk, InReady, TickVerdict, CanChoose, Ticking, Tick;
    TickReadies(m, t);
    if WaitsIn(m.k.waiting, t) {
      var i :| 0 <= i < |m.k.waiting| && m.k.waiting[i].Some? && m.k.waiting[i].value.task == t;
      TickOnWaitingTask(m, i);
    } else {
      StepOnOther(m, TickStep, t);
    }
  }

  /** What the section sees of a tick of a free kernel: it frees slots, tells the woken, and
      suspends and resumes nobody. */
  ghost predicate TickSeen(c: Section, s: System, r: Kernel)
    requires Shape(s.m.k) && |s.places| == |s.m.k.tasks|
  {
    && |r.tasks| == |s.m.k.tasks| == |r.live| && |r.ready| == PRIORITIES && r.live == s.m.k.live
    && OnlyFreed(s.m.k.waiting, r.waiting) && AnswersFollow(s.m.k, r, s.places, true)
    && Suspensions(r) == Suspensions(s.m.k)
    && (forall i :: 0 <= i < |s.m.k.waiting| && s.m.k.waiting[i].Some? ==>
          (WaitsIn(r.waiting, s.m.k.waiting[i].value.task) <==> !TickVerdict(s.m.k, i).Woken?))
  }

  lemma TickIsSeen(c: Section, s: System)
    requires Inv(c, s) && KernelMachine.Enabled(s.m, TickStep) && s.m.k.interlock == 0
    ensures Shape(s.m.k) && |s.places| == |s.m.k.tasks| && TickSeen(c, s, KernelMachine.Next(s.m, TickStep).k)
  {
    hide ReadyOk, WaitOk, NoneLost, IdleOk, Waitable, RingOk, InReady, TickVerdict, CanChoose, Ticking, Tick, WaitsIn;
    hide ForSection, Mentions;
    var k, r := s.m.k, KernelMachine.Next(s.m, TickStep).k;
    TickReadies(s.m, k.current);
    TickFrees(s.m);
    forall t | 0 <= t < |k.tasks|
      ensures IsSuspendedTask(r, t) == IsSuspendedTask(k, t)
      ensures !Free(s.places[t]) ==>
                r.tasks[t].result ==
                  if s.places[t].Blocked? && !WaitsIn(r.waiting, t) then ObjectSet else k.tasks[t].result
    {
      TickOnTask(s.m, t);
      if s.places[t].Blocked? {
        BlockedAfterTick(c, s, t);
      }
    }
    forall i | 0 <= i < |k.waiting| && k.waiting[i].Some?
      ensures WaitsIn(r.waiting, k.waiting[i].value.task) <==> !TickVerdict(k, i).Woken?
    {
      TickOnWaitingTask(s.m, i);
    }
  }

  lemma TickFrees(m: Machine)
    requires KernelMachine.Inv(m) && KernelMachine.Enabled(m, TickStep) && m.k.interlock == 0
    ensures OnlyFreed(m.k.waiting, KernelMachine.Next(m, TickStep).k.waiting)
  {
    hide ReadyOk, WaitOk, NoneLost, IdleOk, Waitable, RingOk, InReady, TickVerdict, CanChoose, Ticking,
        SwitchIfElapsed, WaitsIn;
    TickScans(m.k);
    SwitchOnlyMarks(Ticking(m.k));
    forall i | 0 <= i < |m.k.waiting| && m.k.waiting[i].Some?
      ensures Ticking(m.k).waiting[i] == m.k.waiting[i] || Ticking(m.k).waiting[i] == None
    {
      assert SlotServed(m.k, Ticking(m.k), i, TickVerdict(m.k, i));
    }
  }

  lemma BlockedAfterTick(c: Section, s: System, t: nat)
    requires Inv(c, s) && KernelMachine.Enabled(s.m, TickStep) && s.m.k.interlock == 0
    requires t < |s.places| && s.places[t].Blocked?
    ensures var r := KernelMachine.Next(s.m, TickStep).k;
            t < |r.tasks| && r.tasks[t].result == if WaitsIn(r.waiting, t) then s.m.k.tasks[t].result else ObjectSet
  {
    hide ReadyOk, WaitOk, NoneLost, IdleOk, Waitable, RingOk, InReady, TickVerdict, CanChoose, Ticking, Tick,
        ForSection;
    var i :| 0 <= i < |s.m.k.waiting| && s.m.k.waiting[i].Some? && s.m.k.waiting[i].value.task == t;
    TickOnWaitingTask(s.m, i);
    WaiterAtTurn(c, s.m.k, i);
  }

  /** Where the tick lets the section's tasks go: the one it wakes, if any, and nobody else. */
  lemma TickPlaces(c: Section, s: System, r: Kernel, woken: Option<nat>)
    requires Inv(c, s) && Shape(s.m.k) && |s.places| == |s.m.k.tasks| && TickSeen(c, s, r)
    requires TheWoken(c, s.m.k, woken)
    ensures Followed(s.places, r.waiting, true) ==
              match woken
              case None => s.places
              case Some(i) => s.places[s.m.k.waiting[i].value.task := Protocol.Resumed(true)]
    ensures woken.Some? ==> s.places[s.m.k.waiting[woken.value].value.task].Blocked?
  {
    hide KernelMachine.Inv, Waitable, RingOk, TickVerdict, ForSection, Mentions, WaitsIn, SlotsFit, PlacesFit;
    var k, places := s.m.k, Followed(s.places, r.waiting, true);
    if woken.Some? {
      WokenIsBlocked(c, s, woken.value);
    }
    forall t | 0 <= t < |places| && s.places[t].Blocked?
      ensures WaitsIn(r.waiting, t) <==> !(woken.Some? && k.waiting[woken.value].value.task == t)
    {
      var j := BlockedSlot(c, s, t);
      SameSlot(s, j, t);
      if woken.Some? && woken.value < j {
        OneWaiterWakes(c, k, woken.value, j);
      } else if woken.Some? && j < woken.value && WakesWaiter(c, k, j) {
        OneWaiterWakes(c, k, j, woken.value);
      }
      assert WakesWaiter(c, k, j) <==> woken == Some(j);
    }
  }

  lemma WokenIsBlocked(c: Section, s: System, i: nat)
    requires Inv(c, s) && Shape(s.m.k) && i < |s.m.k.waiting| && WakesWaiter(c, s.m.k, i)
    ensures var t := s.m.k.waiting[i].value.task; t < |s.places| && s.places[t].Blocked?
  {
    hide KernelMachine.Inv, Waitable, RingOk, TickVerdict, ForSection, Mentions;
  }

  lemma BlockedSlot(c: Section, s: System, t: nat) returns (j: nat)
    requires Inv(c, s) && t < |s.places| && s.places[t].Blocked?
    ensures j < |s.m.k.waiting| && s.m.k.waiting[j].Some? && s.m.k.waiting[j].value.task == t
    ensures ForSection(c, s.m.k.waiting[j].value.conditions)
  {
    hide KernelMachine.Inv, Waitable, RingOk, ForSection, Mentions;
    j :| 0 <= j < |s.m.k.waiting| && s.m.k.waiting[j].Some? && s.m.k.waiting[j].value.task == t;
  }

  lemma SameSlot(s: System, j: nat, t: nat)
    requires KernelMachine.Inv(s.m) && j < |s.m.k.waiting| && s.m.k.waiting[j].Some? && s.m.k.waiting[j].value.task == t
    ensures forall i :: 0 <= i < |s.m.k.waiting| && s.m.k.waiting[i].Some? && s.m.k.waiting[i].value.task == t ==>
              i == j
  {
    hide ReadyOk, NoneLost, IdleOk, Waitable, RingOk;
  }

  /** The section's event over a whole tick: reset if a waiter takes it, else as it was. */
  lemma TickEvent(c: Section, s: System, n: nat, woken: Option<nat>)
    requires Inv(c, s) && Shape(s.m.k) && n <= |s.m.k.waiting|
    requires TheWoken(c, s.m.k, woken)
    ensures var w := ScanWorld(TickTimers(s.m.k.world, s.m.k.now), s.m.k.waiting, s.m.k.now, n);
            && Protocol.EventAlive(w, c.event)
            && var e := s.m.k.world.events[IdOf(c.event)].value;
            w.events[IdOf(c.event)] == Some(if woken.Some? && woken.value < n then e.(isSet := false) else e)
  {
    hide KernelMachine.Inv, RingOk, WaitsIn;
    var k := s.m.k;
    var w0 := TickTimers(k.world, k.now);
    var w := ScanWorld(w0, k.waiting, k.now, n);
    ScanKeepsCell(w0, k.waiting, k.now, n, c.event);
    SignalAtTurn(w0, k.waiting, k.now, n, c.event);
    forall j | 0 <= j < |k.waiting| && Takes(w0, k.waiting, k.now, j, c.event)
      ensures WakesWaiter(c, k, j)
    {
      TakersAreWaiters(c, s, j);
    }
    if woken.Some? {
      var i := woken.value;
      WaiterAtTurn(c, k, i);
      OneSettingEndsOneWait(k, c.event, i);
      forall j | 0 <= j < |k.waiting| && Takes(w0, k.waiting, k.now, j, c.event) ensures j == i {
        if i < j {
          OneWaiterWakes(c, k, i, j);
        } else if j < i {
          OneWaiterWakes(c, k, j, i);
        }
      }
    }
    hide ScanWorld, Takes, WakesWaiter, TickVerdict;
  }

  lemma TakersAreWaiters(c: Section, s: System, j: nat)
    requires Inv(c, s) && Shape(s.m.k) && j < |s.m.k.waiting|
    requires Takes(TickTimers(s.m.k.world, s.m.k.now), s.m.k.waiting, s.m.k.now, j, c.event)
    ensures WakesWaiter(c, s.m.k, j)
  {
    hide KernelMachine.Inv, RingOk, WaitsIn, Check, ScanWorld;
    var cond := s.m.k.waiting[j].value.conditions;
    assert cond.signals != [] && (cond.signals[0] in cond.signals);
    assert Mentions(c, cond);
  }

  /** A tick is nothing but a change of other objects, with the wake of the section's waiter at
      its turn in between if it has one. */
  lemma TickSimulated(c: Section, s: System) returns (path: seq<Protocol.Step>)
    requires Inv(c, s) && KernelMachine.Enabled(s.m, TickStep) && s.m.k.interlock == 0
    ensures var r := Moved(s, KernelMachine.Next(s.m, TickStep), true); Inv(c, r) && Simulates(c, s, r, path)
  {
    hide Sound, Waitable, RingOk, TickVerdict, ForSection, Mentions, WaitsIn, SlotsFit, PlacesFit, AnswersFit, Tick;
    hide WakesWaiter, TheWoken, Followed, ScanWorld, CanChoose, Ticking, Suspensions;
    var k, m := s.m.k, KernelMachine.Next(s.m, TickStep);
    var r := Moved(s, m, true);
    StepKeepsInv(s.m, TickStep);
    TickIsSeen(c, s);
    TickKeepsWorld(k);
    SoundHasShape(m.k);
    var woken := FindWoken(c, k);
    TickEvent(c, s, |k.waiting|, woken);
    TickPlaces(c, s, m.k, woken);
    FollowKeepsSystem(c, s, m, true);
    match woken {
      case Some(i) => path := WakePath(c, s, i, Abstract(r));
      case None =>
        path := [Protocol.Elsewhere(m.k.world)];
        OneStepPath(c, Abstract(s), path[0], Abstract(r));
    }
  }

  lemma FindWoken(c: Section, k: Kernel) returns (woken: Option<nat>)
    requires Shape(k)
    ensures TheWoken(c, k, woken)
    ensures woken.Some? ==> woken.value < |k.waiting| && WakesWaiter(c, k, woken.value) && k.waiting[woken.value].Some?
  {
    if i :| 0 <= i < |k.waiting| && WakesWaiter(c, k, i) {
      return Some(i);
    }
    return None;
  }

  /** Other objects, the wake, other objects. */
  lemma WakePath(c: Section, s: System, i: nat, b: Protocol.State) returns (path: seq<Protocol.Step>)
    requires Inv(c, s) && Shape(s.m.k) && i < |s.m.k.waiting| && WakesWaiter(c, s.m.k, i)
    requires var t := s.m.k.waiting[i].value.task;
             && t < |s.places| && s.places[t].Blocked?
             && b == Abstract(s).(places := s.places[t := Protocol.Resumed(true)], world := b.world)
    requires b.world == ScanWorld(TickTimers(s.m.k.world, s.m.k.now), s.m.k.waiting, s.m.k.now, |s.m.k.waiting|)
    ensures Protocol.IsRun(c, Abstract(s), path) && Protocol.After(c, Abstract(s), path) == b
  {
    var k, a := s.m.k, Abstract(s);
    var t := k.waiting[i].value.task;
    var w0 := TickTimers(k.world, k.now);
    var w, v := WorldAtTurn(k, i), TickVerdict(k, i);
    TickEvent(c, s, i, Some(i));
    TickEvent(c, s, i + 1, Some(i));
    TickEvent(c, s, |k.waiting|, Some(i));
    WaiterAtTurn(c, k, i);
    assert !Suspensions(k)[t] by {
      SlotWaits(k.waiting, i);
    }
    hide KernelMachine.Inv, Waitable, RingOk, TickVerdict, ForSection, WaitsIn, SlotsFit, PlacesFit,
        AnswersFit, LiveFit,
         ScanWorld, SignalVerdict, Suspensions, TickTimers;
    var first, second, third := Protocol.Elsewhere(w), Protocol.ByTask(t, Protocol.Wake), Protocol.Elsewhere(b.world);
    var a1 := a.(world := w);
    var a2 := a1.(world := v.world, places := s.places[t := Protocol.Resumed(true)]);
    OneStepPath(c, a, first, a1);
    OneStepPath(c, a1, second, a2);
    OneStepPath(c, a2, third, b);
    Protocol.RunInTwoParts(c, a, [first], [second]);
    Protocol.RunInTwoParts(c, a, [first] + [second], [third]);
    path := [first] + [second] + [third];
  }

  // ---- every move ------------------------------------------------------------------

  lemma OutsideSimulated(c: Section, s: System, world: World) returns (path: seq<Protocol.Step>)
    requires Inv(c, s) && Enabled(c, s, ByKernel(Step.Outside(world)))
    ensures var r := Next(c, s, ByKernel(Step.Outside(world))); Inv(c, r) && Simulates(c, s, r, path)
  {
    StepKeepsInv(s.m, Step.Outside(world));
    var r := Next(c, s, ByKernel(Step.Outside(world)));
    OtherWorld(s.m.k, world);
    hide Waitable, RingOk, Sound, WaitsIn, Suspensions, SlotsFit, ForSection, Mentions;
    SoundHasShape(r.m.k);
    assert r.places == s.places;
    path := [Protocol.Elsewhere(world)];
    OneStepPath(c, Abstract(s), path[0], Abstract(r));
  }

  lemma OtherWorld(k: Kernel, world: World)
    requires |k.ready| == PRIORITIES && |k.tasks| == |k.live|
    ensures Suspensions(k.(world := world)) == Suspensions(k)
  {
    assert forall t :: 0 <= t < |k.tasks| ==> InReady(k.(world := world), t) == InReady(k, t);
  }

  /** The steps of the kernel that are no step of the protocol. */
  lemma IdleSimulated(c: Section, s: System, step: Step)
    requires Inv(c, s) && KernelMachine.Enabled(s.m, step)
    requires step.Enter? || step.Compute? || step.Close? || (step.TickStep? && s.m.k.interlock != 0)
    ensures var r := Moved(s, KernelMachine.Next(s.m, step), step == TickStep);
            Inv(c, r) && Shape(s.m.k) && Shape(r.m.k) && Abstract(r) == Abstract(s)
  {
    var m := KernelMachine.Next(s.m, step);
    StepKeepsInv(s.m, step);
    if step.Close? {
      CloseAlike(s.m);
    } else {
      LockTimeOrCode(s.m, step);
    }
    hide Waitable, RingOk, Sound, WaitsIn, SlotsFit, PlacesFit, Suspensions, CanChoose;
    SoundHasShape(m.k);
    AlikeKeepsSystem(c, s, m);
  }

  lemma LockTimeOrCode(m: Machine, step: Step)
    requires KernelMachine.Inv(m) && KernelMachine.Enabled(m, step)
    requires step.Enter? || step.Compute? || (step.TickStep? && m.k.interlock != 0)
    ensures Shape(KernelMachine.Next(m, step).k) && Alike(m.k, KernelMachine.Next(m, step).k)
  {
    hide Waitable, RingOk, ReadyOk, WaitOk, NoneLost, IdleOk, CanChoose;
  }

  lemma RegionSimulated(c: Section, s: System) returns (path: seq<Protocol.Step>)
    requires Inv(c, s) && Enabled(c, s, ByKernel(Run))
    ensures var r := Next(c, s, ByKernel(Run)); Inv(c, r) && Simulates(c, s, r, path)
  {
    var m, call := KernelMachine.Next(s.m, Run), s.m.mode.call;
    StepKeepsInv(s.m, Run);
    assert Ran(c, s, m, call);
    hide Inv, Sound, KernelMachine.Inv, Allowed, Legal, Free, Body, Abstract;
    EmptyPath(c, s);
    match call {
      case CreateTask(_, _, _) => path := CreateSimulated(c, s, m, call);
      case Terminate(id) => path := TerminateSimulated(c, s, m, id);
      case Suspend(id) => path := SuspendSimulated(c, s, m, id);
      case Resume(id) => path := ResumeSimulated(c, s, m, id);
      case Sleep(_) =>
        ParkSimulated(c, s, m, call);
        path := [];
      case Wait(_) =>
        ParkSimulated(c, s, m, call);
        path := [];
      case _ =>
        StartOrOther(c, s, m, call);
        RegionChangesNothing(c, s, m, call);
        path := [];
    }
  }

  lemma EmptyPath(c: Section, s: System)
    requires Shape(s.m.k)
    ensures Protocol.IsRun(c, Abstract(s), []) && Protocol.After(c, Abstract(s), []) == Abstract(s)
  {
  }

  lemma StartOrOther(c: Section, s: System, m: Machine, call: Call)
    requires Inv(c, s) && Ran(c, s, m, call) && (call.Start? || call.Other?)
    ensures m.k == s.m.k.(started := m.k.started)
  {
  }

  /** Every move of the system is a run of the protocol. */
  lemma MoveSimulated(c: Section, s: System, move: Move) returns (path: seq<Protocol.Step>)
    requires Inv(c, s) && Enabled(c, s, move)
    ensures Shape(s.m.k) && Shape(Next(c, s, move).m.k)
    ensures Inv(c, Next(c, s, move)) && Simulates(c, s, Next(c, s, move), path)
  {
    match move {
      case ByKernel(step) =>
        match step {
          case Run => path := RegionSimulated(c, s);
          case Outside(world) => path := OutsideSimulated(c, s, world);
          case TickStep =>
            if s.m.k.interlock == 0 {
              path := TickSimulated(c, s);
            } else {
              IdleSimulated(c, s, step);
              EmptyPath(c, s);
              path := [];
            }
          case _ =>
            IdleSimulated(c, s, step);
            EmptyPath(c, s);
            path := [];
        }
      case Register => path := RegisterSimulated(c, s);
      case LeaveSection => path := LeaveSimulated(c, s);
      case _ => path := CodeSimulated(c, s, move);
    }
    hide SlotsFit, PlacesFit, LiveFit, AnswersFit, Sound, Abstract;
    SoundHasShape(Next(c, s, move).m.k);
  }

  // ---- every run --------------------------------------------------------------------

  ghost predicate IsRun(c: Section, s: System, moves: seq<Move>)
    decreases |moves|
  {
    moves == [] || (Enabled(c, s, moves[0]) && IsRun(c, Next(c, s, moves[0]), moves[1..]))
  }

  ghost function After(c: Section, s: System, moves: seq<Move>): System
    requires IsRun(c, s, moves)
    decreases |moves|
  {
    if moves == [] then s else After(c, Next(c, s, moves[0]), moves[1..])
  }

  /** Every run of tasks that use the section, in any kernel, with any other calls, ticks,
      suspensions and interrupts, is a run of the protocol. */
  lemma {:induction false} RunSimulated(c: Section, s: System, moves: seq<Move>) returns (path: seq<Protocol.Step>)
    requires Inv(c, s) && IsRun(c, s, moves)
    ensures Inv(c, After(c, s, moves)) && Shape(s.m.k) && Shape(After(c, s, moves).m.k)
    ensures Simulates(c, s, After(c, s, moves), path)
    decreases |moves|
  {
    if moves == [] {
      ShapeOf(c, s);
      EmptyPath(c, s);
      path := [];
    } else {
      hide Inv, Enabled, Next, Abstract, Shape;
      var first := MoveSimulated(c, s, moves[0]);
      var rest := RunSimulated(c, Next(c, s, moves[0]), moves[1..]);
      Protocol.RunInTwoParts(c, Abstract(s), first, rest);
      path := first + rest;
    }
  }

  lemma ShapeOf(c: Section, s: System)
    requires Inv(c, s)
    ensures Shape(s.m.k)
  {
  }

  /** After `critical_section::init`: a new event that nobody waits for, and nobody in `enter`. */
  ghost predicate Begins(c: Section, s: System) {
    && KernelMachine.Inv(s.m) && |s.places| == |s.before| == |s.m.k.tasks|
    && s.lockCount == 0
    && Protocol.EventAlive(s.m.k.world, c.event) && Signaled(s.m.k.world, c.event)
    && (forall t :: 0 <= t < |s.places| ==> s.places[t].Outside?)
    && (forall i :: 0 <= i < |s.m.k.waiting| && s.m.k.waiting[i].Some? ==>
          !Mentions(c, s.m.k.waiting[i].value.conditions))
  }

  lemma BeginsRight(c: Section, s: System)
    requires Begins(c, s)
    ensures Inv(c, s) && Shape(s.m.k) && Protocol.Initial(c, Abstract(s))
  {
    hide RingOk, ReadyOk, WaitOk, NoneLost, IdleOk, Waitable, WaitsIn, InReady;
    assert forall cond :: ForSection(c, cond) ==> Mentions(c, cond);
  }

  /** Mutual exclusion in the kernel: over every such run at most one task is inside the section,
      and the counter says whether one is. */
  lemma MutualExclusionInKernel(c: Section, s: System, moves: seq<Move>, a: nat, b: nat)
    requires Begins(c, s) && IsRun(c, s, moves)
    ensures var r := After(c, s, moves);
            && r.lockCount as nat == |Protocol.Holders(r.places)| <= 1
            && (a < |r.places| && b < |r.places| && r.places[a].Inside? && r.places[b].Inside? ==> a == b)
  {
    BeginsRight(c, s);
    var path := RunSimulated(c, s, moves);
    Protocol.MutualExclusion(c, Abstract(s), path, a, b);
  }

  /** The tests that task `t` has made since it last called `enter` or came back from a wait,
      counted along the moves of a run; `n` is the count before the run. */
  ghost function TestsSince(c: Section, s: System, moves: seq<Move>, t: nat, n: nat): nat
    requires IsRun(c, s, moves)
    decreases |moves|
  {
    if moves == [] then n
    else TestsSince(c, Next(c, s, moves[0]), moves[1..], t, if s.m.k.current == t then Counting(moves[0], n) else n)
  }

  /** The count of the task that makes the move. */
  function Counting(move: Move, n: nat): nat {
    if move.Arrive? || move.Return? then 0 else if move.Test? then n + 1 else n
  }

  lemma MoveCounts(c: Section, s: System, move: Move, t: nat, n: nat)
    requires Enabled(c, s, move) && t < |s.places| && Protocol.Counted(c, s.places[t], n)
    ensures |Next(c, s, move).places| == |s.places|
    ensures Protocol.Counted(c, Next(c, s, move).places[t], if s.m.k.current == t then Counting(move, n) else n)
  {
    hide Waitable, RingOk, KernelMachine.Enabled, KernelMachine.Next, Allowed, ForSection, WaitsIn;
  }

  lemma {:induction false} RunCounts(c: Section, s: System, moves: seq<Move>, t: nat, n: nat)
    requires IsRun(c, s, moves) && t < |s.places| && Protocol.Counted(c, s.places[t], n)
    ensures |After(c, s, moves).places| == |s.places|
    ensures Protocol.Counted(c, After(c, s, moves).places[t], TestsSince(c, s, moves, t, n))
    decreases |moves|
  {
    if moves != [] {
      hide Enabled, Next, Counting;
      MoveCounts(c, s, moves[0], t, n);
      RunCounts(c, Next(c, s, moves[0]), moves[1..], t, if s.m.k.current == t then Counting(moves[0], n) else n);
    }
  }

  /** In the kernel too a task goes to wait for the section only after exactly `spinLock + 1`
      tests since it called `enter` or came back from a wait, goes round until then, and never
      makes more tests. */
  lemma SpinBoundInKernel(c: Section, s: System, moves: seq<Move>, t: nat)
    requires Begins(c, s) && IsRun(c, s, moves) && t < |s.places|
    ensures var r, n := After(c, s, moves), TestsSince(c, s, moves, t, 0);
            && t < |r.places| && n <= c.spinLock as nat + 1
            && (r.places[t].Blocked? ==> n == c.spinLock as nat + 1)
            && (Enabled(c, r, Register) && r.m.k.current == t ==> n == c.spinLock as nat + 1)
            && (Enabled(c, r, Spin) && r.m.k.current == t ==> n <= c.spinLock as nat)
  {
    RunCounts(c, s, moves, t, 0);
    hide Shape, Legal, ForSection;
  }

  /** No wake-up is lost in the kernel: over every such run, if the section is free and its event
      reset, a task that is not waiting is about to test the counter, and the tasks that want
      the section can take it exactly when one of them is not suspended and the event is set or
      that task tests again anyway. */
  lemma NoWakeUpLostInKernel(c: Section, s: System, moves: seq<Move>)
    requires Begins(c, s) && IsRun(c, s, moves)
    ensures var r := After(c, s, moves);
            && Shape(r.m.k) && Protocol.EventAlive(r.m.k.world, c.event)
            && (r.lockCount == 0 && !Signaled(r.m.k.world, c.event) ==>
                  exists t :: 0 <= t < |r.places| && Protocol.AboutToTest(r.places[t]) && !WaitsIn(r.m.k.waiting, t))
            && (r.lockCount == 0 ==>
                  (Protocol.Takeable(c, Abstract(r)) <==> Protocol.SomeoneWillTest(c, Abstract(r))))
  {
    BeginsRight(c, s);
    var path := RunSimulated(c, s, moves);
    Protocol.InitialInv(c, Abstract(s));
    Protocol.RunKeepsInv(c, Abstract(s), path);
    var r := After(c, s, moves);
    if r.lockCount == 0 {
      Protocol.FreeSectionTakeableExactly(c, Abstract(s), path);
    }
    AboutToTestWaitsNot(c, r);
    hide Shape, Inv, IsRun, After, Begins, WaitsIn, Protocol.Takeable, Protocol.SomeoneWillTest;
  }

  lemma AboutToTestWaitsNot(c: Section, s: System)
    requires Inv(c, s)
    ensures forall t :: 0 <= t < |s.places| && Protocol.AboutToTest(s.places[t]) ==> !WaitsIn(s.m.k.waiting, t)
  {
    hide KernelMachine.Inv, WaitsIn, SlotsFit;
  }

  /** `enter` finds an answer other than that its object is set, and goes through its error
      branch, exactly when the task was suspended while it waited for the section and the answer
      of its wait before that was another one. */
  lemma ErrorBranchExactly(c: Section, s: System, moves: seq<Move>)
    requires Begins(c, s) && IsRun(c, s, moves) && Enabled(c, After(c, s, moves), Return)
    ensures var r := After(c, s, moves);
            var t := r.m.k.current;
            && t < |r.places| == |r.before| == |r.m.k.tasks|
            && (r.m.k.tasks[t].result != ObjectSet <==>
                  r.places[t] == Protocol.Resumed(false) && r.before[t] != ObjectSet)
  {
    hide Shape, Inv, IsRun, After, Begins, Simulates, Abstract;
    BeginsRight(c, s);
    var path := RunSimulated(c, s, moves);
    AnswerOnReturn(c, After(c, s, moves));
  }

  lemma AnswerOnReturn(c: Section, r: System)
    requires Inv(c, r) && Enabled(c, r, Return)
    ensures var t := r.m.k.current;
            && t < |r.places| == |r.before| == |r.m.k.tasks|
            && (r.m.k.tasks[t].result != ObjectSet <==>
                  r.places[t] == Protocol.Resumed(false) && r.before[t] != ObjectSet)
  {
    hide KernelMachine.Inv, SlotsFit, PlacesFit, LiveFit, Waitable, RingOk;
    assert AnswerFits(r.m.k.tasks[r.m.k.current], r.places[r.m.k.current], r.before[r.m.k.current]);
  }
}
