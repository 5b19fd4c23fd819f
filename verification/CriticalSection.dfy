/** The user-level critical section (source/kernel.cpp, `kernel::critical_section`) as a
    protocol between any number of tasks. Each region between `lock::enter` and
    `lock::leave` is one step, because the tick does no scheduling while the lock is held. */
module SectionProtocol {
  import opened Slots
  import opened Handles
  import opened SignalWorld
  import opened WaitConditions

  /** What is fixed when the section is initialised. */
  datatype Section = Section(spinLock: Word, event: Word)

  /** Where a task is. `i` is the spin counter of `enter`; `woken` tells whether the event ended
      its wait or a suspension did. */
  datatype Place =
    | Outside
    | LoopTop(i: nat)
    | FoundTaken(i: nat)
    | Blocked
    | Resumed(woken: bool)
    | Inside

  /** `suspended` tells which tasks are suspended, wherever they are. */
  datatype State = State(lockCount: Word, world: World, places: seq<Place>, suspended: seq<bool>)

  // ---- the locked regions --------------------------------------------------

  /** `enter`'s region: take the section if its counter is zero. */
  function Tested(lockCount: Word): (Word, bool) {
    if lockCount == 0 then (1, true) else (lockCount, false)
  }

  predicate EventAlive(w: World, h: Word) {
    TypeOf(h) == EVENT && Has(w.events, IdOf(h)) && !w.events[IdOf(h)].value.manualReset
  }

  function SetEvent(w: World, h: Word): (r: World)
    requires EventAlive(w, h)
    ensures EventAlive(r, h) && Signaled(r, h)
  {
    var event := w.events[IdOf(h)].value;
    w.(events := w.events[IdOf(h) := Some(event.(isSet := true))])
  }

  /** `leave`'s region: decrement, and set the event when that frees the section. */
  function Left(lockCount: Word, w: World, h: Word): (Word, World)
    requires EventAlive(w, h)
  {
    var count := Decremented(lockCount);
    (count, if count == 0 then SetEvent(w, h) else w)
  }

  // ---- the steps -----------------------------------------------------------

  datatype Action =
    | Arrive        // call `enter`
    | Test          // the locked test at the loop top
    | Spin          // not yet tested often enough: count and go round
    | Register      // start waiting for the event
    | Wake          // a tick finds the wait fulfilled
    | Return        // read the wait's result and go round
    | Leave         // the holder calls `leave`

  /** `Suspend` and `Resume` stand for `task::suspend` and `task::resume` by anyone: a suspended
      task makes no step, and one that waited for the event is taken off the wait list and goes
      on without the event once it is resumed. */
  datatype Step = ByTask(task: nat, action: Action) | Suspend(task: nat) | Resume(task: nat) | Elsewhere(world: World)

  predicate Enabled(c: Section, s: State, step: Step) {
    match step
    case Elsewhere(world) =>
      // Other calls change other objects; the section's own event is private to it.
      && EventAlive(s.world, c.event) && EventAlive(world, c.event)
      && world.events[IdOf(c.event)] == s.world.events[IdOf(c.event)]
    case Suspend(t) => t < |s.places| == |s.suspended|
    case Resume(t) => t < |s.places| == |s.suspended|
    case ByTask(t, action) =>
      && t < |s.places| == |s.suspended| && !s.suspended[t]
      && EventAlive(s.world, c.event)
      && match action
         case Arrive => s.places[t] == Outside
         case Test => s.places[t].LoopTop?
         case Spin => s.places[t].FoundTaken? && s.places[t].i < c.spinLock as nat
         case Register => s.places[t].FoundTaken? && s.places[t].i >= c.spinLock as nat
         case Wake => s.places[t] == Blocked && SignalVerdict(s.world, [c.event], false).Woken?
         case Return => s.places[t].Resumed?
         case Leave => s.places[t] == Inside
  }

  function At(s: State, t: nat, p: Place): State
    requires t < |s.places|
  {
    s.(places := s.places[t := p])
  }

  function Next(c: Section, s: State, step: Step): (r: State)
    requires Enabled(c, s, step)
    ensures |r.places| == |s.places| && |r.suspended| == |s.suspended|
  {
    match step
    case Elsewhere(world) => s.(world := world)
    case Suspend(t) =>
      At(s, t, if s.places[t] == Blocked then Resumed(false) else s.places[t]).(suspended := s.suspended[t := true])
    case Resume(t) => s.(suspended := s.suspended[t := false])
    case ByTask(t, action) =>
      match action
      case Arrive => At(s, t, LoopTop(0))
      case Test =>
        var (count, taken) := Tested(s.lockCount);
        var p := s.places[t];
        At(s, t, if taken then Inside else FoundTaken(p.i)).(lockCount := count)
      case Spin => At(s, t, LoopTop(s.places[t].i + 1))
      case Register => At(s, t, Blocked)
      case Wake => At(s, t, Resumed(true)).(world := SignalVerdict(s.world, [c.event], false).world)
      case Return => At(s, t, LoopTop(0))
      case Leave =>
        var (count, world) := Left(s.lockCount, s.world, c.event);
        At(s, t, Outside).(lockCount := count, world := world)
  }

  /** After `init`: the counter is zero, the event auto-reset and set, nobody has called; any
      tasks may be suspended. */
  ghost predicate Initial(c: Section, s: State) {
    && s.lockCount == 0
    && EventAlive(s.world, c.event) && Signaled(s.world, c.event)
    && |s.suspended| == |s.places|
    && forall t :: 0 <= t < |s.places| ==> s.places[t] == Outside
  }

  // ---- what every step keeps -----------------------------------------------

  ghost function Holders(places: seq<Place>): (h: set<nat>)
    ensures forall t :: t in h <==> 0 <= t < |places| && places[t] == Inside
  {
    set t: nat | t < |places| && places[t] == Inside
  }

  /** Tasks that will test the counter without any further event. */
  predicate AboutToTest(p: Place) {
    p.LoopTop? || p.Resumed?
  }

  ghost predicate Inv(c: Section, s: State) {
    && EventAlive(s.world, c.event) && |s.suspended| == |s.places|
    // Mutual exclusion: the counter counts the holders and there is at most one.
    && s.lockCount as nat == |Holders(s.places)| <= 1
    // No lost wake-up.
    && (s.lockCount == 0 && !Signaled(s.world, c.event) ==>
          exists t :: 0 <= t < |s.places| && AboutToTest(s.places[t]))
  }

  lemma InitialInv(c: Section, s: State)
    requires Initial(c, s)
    ensures Inv(c, s)
  {
    assert Holders(s.places) == {};
  }

  lemma HoldersAfter(places: seq<Place>, t: nat, p: Place)
    requires t < |places|
    ensures Holders(places[t := p]) == if p == Inside then Holders(places) + {t} else Holders(places) - {t}
  {
  }

  lemma StepKeepsEvent(c: Section, s: State, step: Step)
    requires Enabled(c, s, step) && EventAlive(s.world, c.event)
    ensures EventAlive(Next(c, s, step).world, c.event)
    ensures var r := Next(c, s, step);
            Signaled(r.world, c.event) <==>
              match step
              case Elsewhere(_) => Signaled(s.world, c.event)
              case ByTask(_, Wake) => false
              case ByTask(_, Leave) => r.lockCount == 0 || Signaled(s.world, c.event)
              case _ => Signaled(s.world, c.event)
  {
    if step.ByTask? && step.action == Wake {
      SingleWaitConsumesEvent(s.world, c.event, c.event, false);
    }
  }

  lemma StepKeepsCount(c: Section, s: State, step: Step)
    requires Enabled(c, s, step) && s.lockCount as nat == |Holders(s.places)| <= 1
    ensures var r := Next(c, s, step); r.lockCount as nat == |Holders(r.places)| <= 1
    ensures step.ByTask? && step.action == Leave ==> s.lockCount == 1 && Next(c, s, step).lockCount == 0
  {
    if !step.Elsewhere? {
      var r, t := Next(c, s, step), step.task;
      assert r.places == s.places[t := r.places[t]];
      HoldersCount(s.places, t, r.places[t]);
      hide Holders, EventAlive, SignalVerdict, SetEvent;
    }
  }

  /** How many are inside after one task has moved. */
  lemma HoldersCount(places: seq<Place>, t: nat, p: Place)
    requires t < |places|
    ensures |Holders(places[t := p])| == |Holders(places)| + (if p == Inside then 1 else 0)
                                         - (if places[t] == Inside then 1 else 0)
    ensures places[t] == Inside ==> |Holders(places)| > 0
  {
    HoldersAfter(places, t, p);
    var h := Holders(places);
    assert t in h <==> places[t] == Inside;
    if t in h {
      assert h == (h - {t}) + {t};
    } else {
      assert h - {t} == h;
    }
    if p == Inside && t in h {
      assert h + {t} == h;
    }
  }

  lemma StepKeepsWake(c: Section, s: State, step: Step)
    requires Inv(c, s) && Enabled(c, s, step)
    ensures var r := Next(c, s, step);
            EventAlive(r.world, c.event) && (r.lockCount == 0 && !Signaled(r.world, c.event) ==>
              exists t :: 0 <= t < |r.places| && AboutToTest(r.places[t]))
  {
    StepKeepsEvent(c, s, step);
    StepKeepsCount(c, s, step);
    var r := Next(c, s, step);
    if r.lockCount == 0 && !Signaled(r.world, c.event) {
      if step == ByTask(if step.ByTask? then step.task else 0, Wake) {
        assert AboutToTest(r.places[step.task]);
      } else {
        var u :| 0 <= u < |s.places| && AboutToTest(s.places[u]);
        assert AboutToTest(r.places[u]);
      }
    }
  }

  lemma StepKeepsInv(c: Section, s: State, step: Step)
    requires Inv(c, s) && Enabled(c, s, step)
    ensures Inv(c, Next(c, s, step))
  {
    StepKeepsCount(c, s, step);
    StepKeepsWake(c, s, step);
  }

  // ---- whole runs ----------------------------------------------------------

  ghost predicate IsRun(c: Section, s: State, steps: seq<Step>)
    decreases |steps|
  {
    steps == [] || (Enabled(c, s, steps[0]) && IsRun(c, Next(c, s, steps[0]), steps[1..]))
  }

  ghost function After(c: Section, s: State, steps: seq<Step>): (r: State)
    requires IsRun(c, s, steps)
    ensures |r.places| == |s.places|
    decreases |steps|
  {
    if steps == [] then s else After(c, Next(c, s, steps[0]), steps[1..])
  }

  lemma {:induction false} RunInTwoParts(c: Section, s: State, a: seq<Step>, b: seq<Step>)
    requires IsRun(c, s, a) && IsRun(c, After(c, s, a), b)
    ensures IsRun(c, s, a + b) && After(c, s, a + b) == After(c, After(c, s, a), b)
    decreases |a|
  {
    if a == [] {
      assert a + b == b;
    } else {
      assert (a + b)[1..] == a[1..] + b;
      RunInTwoParts(c, Next(c, s, a[0]), a[1..], b);
    }
  }

  lemma {:induction false} RunKeepsInv(c: Section, s: State, steps: seq<Step>)
    requires Inv(c, s) && IsRun(c, s, steps)
    ensures Inv(c, After(c, s, steps))
    decreases |steps|
  {
    if steps != [] {
      StepKeepsInv(c, s, steps[0]);
      RunKeepsInv(c, Next(c, s, steps[0]), steps[1..]);
    }
  }

  /** In every reachable state at most one task is inside, the counter says how many are, and
      a leave never takes it below zero. */
  lemma MutualExclusion(c: Section, s: State, steps: seq<Step>, a: nat, b: nat)
    requires Initial(c, s) && IsRun(c, s, steps)
    ensures var r := After(c, s, steps);
            && r.lockCount as nat == |Holders(r.places)| <= 1
            && (a < |r.places| && b < |r.places| && r.places[a] == Inside && r.places[b] == Inside ==> a == b)
            && (a < |r.places| && r.places[a] == Inside ==> Decremented(r.lockCount) == 0)
  {
    InitialInv(c, s);
    RunKeepsInv(c, s, steps);
    var r := After(c, s, steps);
    if a < |r.places| && r.places[a] == Inside {
      assert {a} <= Holders(r.places);
      SubsetSize({a}, Holders(r.places));
      if b < |r.places| && r.places[b] == Inside {
        assert {a} == Holders(r.places);
        assert b in Holders(r.places);
      }
    }
  }

  // ---- how often a task tests before it waits -------------------------------

  /** The tests that task `t` has made since it last called `enter` or came back from a wait,
      counted along the steps of a run; `n` is the count before the run. */
  function TestsSince(steps: seq<Step>, t: nat, n: nat): nat
    decreases |steps|
  {
    if steps == [] then n
    else TestsSince(steps[1..], t, if steps[0].ByTask? && steps[0].task == t then Counting(steps[0].action, n) else n)
  }

  /** The count of the task that makes the step. */
  function Counting(action: Action, n: nat): nat {
    match action
    case Arrive => 0
    case Return => 0
    case Test => n + 1
    case _ => n
  }

  /** How many tests a task at `p` has made. */
  predicate Counted(c: Section, p: Place, n: nat) {
    && n <= c.spinLock as nat + 1
    && match p
       case LoopTop(i) => n == i <= c.spinLock as nat
       case FoundTaken(i) => n == i + 1
       case Blocked => n == c.spinLock as nat + 1
       case Resumed(_) => n == c.spinLock as nat + 1
       case Inside => n > 0
       case Outside => true
  }

  lemma StepCounts(c: Section, s: State, step: Step, t: nat, n: nat)
    requires Enabled(c, s, step) && t < |s.places| && Counted(c, s.places[t], n)
    ensures var m := if step.ByTask? && step.task == t then Counting(step.action, n) else n;
            Counted(c, Next(c, s, step).places[t], m)
  {
    hide EventAlive, SignalVerdict, SetEvent;
  }

  lemma {:induction false} RunCounts(c: Section, s: State, steps: seq<Step>, t: nat, n: nat)
    requires IsRun(c, s, steps) && t < |s.places| && Counted(c, s.places[t], n)
    ensures Counted(c, After(c, s, steps).places[t], TestsSince(steps, t, n))
    decreases |steps|
  {
    if steps != [] {
      hide Enabled, Next, Counted, Counting;
      var step := steps[0];
      var m := if step.ByTask? && step.task == t then Counting(step.action, n) else n;
      StepCounts(c, s, step, t, n);
      RunCounts(c, Next(c, s, step), steps[1..], t, m);
    }
  }

  /** In every reachable state a task may wait for the event exactly when its last test failed
      and was the `spinLock + 1`st since it called `enter` or came back from a wait, be it woken
      or withdrawn; until then it goes round, and it never makes more tests. */
  lemma SpinBound(c: Section, s: State, steps: seq<Step>, t: nat)
    requires Initial(c, s) && IsRun(c, s, steps) && t < |s.places|
    ensures var r, n := After(c, s, steps), TestsSince(steps, t, 0);
            && t < |r.suspended| && n <= c.spinLock as nat + 1
            && (r.places[t] == Blocked ==> n == c.spinLock as nat + 1)
            && (Enabled(c, r, ByTask(t, Register)) <==>
                  r.places[t].FoundTaken? && !r.suspended[t] && n == c.spinLock as nat + 1)
            && (Enabled(c, r, ByTask(t, Spin)) <==>
                  r.places[t].FoundTaken? && !r.suspended[t] && n <= c.spinLock as nat)
  {
    InitialInv(c, s);
    RunKeepsInv(c, s, steps);
    RunCounts(c, s, steps, t, 0);
  }

  // ---- progress ------------------------------------------------------------

  /** No lost wake-up and no deadlock: in every reachable state in which some task wants the
      section or holds it, one of those tasks has a step, or a suspended one has one as soon as
      it is resumed. When the section is free that task is not the one that leaves. */
  lemma SomeoneCanMove(c: Section, s: State, steps: seq<Step>, t: nat) returns (step: Step)
    requires Initial(c, s) && IsRun(c, s, steps)
    requires t < |s.places| && After(c, s, steps).places[t] != Outside
    ensures var r := After(c, s, steps);
            && step.ByTask? && step.action != Arrive
            && step.task < |r.suspended|
            && (r.lockCount == 0 <==> step.action != Leave)
            && (if r.suspended[step.task]
                then Enabled(c, r, Resume(step.task)) && Enabled(c, Next(c, r, Resume(step.task)), step)
                else Enabled(c, r, step))
            && ((forall u :: 0 <= u < |r.suspended| ==> !r.suspended[u]) ==> Enabled(c, r, step))
  {
    InitialInv(c, s);
    RunKeepsInv(c, s, steps);
    step := MoveFrom(c, After(c, s, steps), t);
  }

  lemma MoveFrom(c: Section, r: State, t: nat) returns (step: Step)
    requires Inv(c, r) && t < |r.places| && r.places[t] != Outside
    ensures step.ByTask? && step.action != Arrive && step.task < |r.suspended|
    ensures Enabled(c, r.(suspended := r.suspended[step.task := false]), step)
    ensures r.lockCount == 0 <==> step.action != Leave
  {
    if r.lockCount != 0 {
      assert Holders(r.places) != {};
      var h :| h in Holders(r.places);
      return ByTask(h, Leave);
    }
    assert t !in Holders(r.places);
    if !Signaled(r.world, c.event) {
      var u :| 0 <= u < |r.places| && AboutToTest(r.places[u]);
      return ByTask(u, if r.places[u].LoopTop? then Test else Return);
    }
    match r.places[t] {
      case LoopTop(_) => return ByTask(t, Test);
      case FoundTaken(i) => return ByTask(t, if i < c.spinLock as nat then Spin else Register);
      case Blocked =>
        SingleWaitConsumesEvent(r.world, c.event, c.event, false);
        return ByTask(t, Wake);
      case Resumed(_) => return ByTask(t, Return);
    }
  }

  /** The holder can leave exactly when it is not suspended. */
  lemma HolderLeavesExactly(c: Section, s: State, steps: seq<Step>, h: nat)
    requires Initial(c, s) && IsRun(c, s, steps)
    requires h < |s.places| && After(c, s, steps).places[h] == Inside
    ensures var r := After(c, s, steps);
            && h < |r.suspended|
            && (Enabled(c, r, ByTask(h, Leave)) <==> !r.suspended[h])
  {
    InitialInv(c, s);
    RunKeepsInv(c, s, steps);
  }

  // ---- progress under suspension -------------------------------------------

  /** A task that tests the counter again without the event. */
  predicate WillTest(c: Section, p: Place) {
    p.LoopTop? || p.Resumed? || (p.FoundTaken? && p.i < c.spinLock as nat)
  }

  /** Nobody arrives and nobody is suspended or resumed. */
  predicate Unaided(step: Step) {
    (step.ByTask? && step.action != Arrive) || step.Elsewhere?
  }

  /** The tasks that already want the free section take it, without an arrival and without a
      resumption. */
  ghost predicate Takeable(c: Section, s: State) {
    exists steps :: IsRun(c, s, steps) && (forall i :: 0 <= i < |steps| ==> Unaided(steps[i]))
                    && After(c, s, steps).lockCount != 0
  }

  ghost predicate SomeoneWillTest(c: Section, s: State) {
    |s.places| == |s.suspended|
    && exists t :: 0 <= t < |s.places| && !s.suspended[t] && s.places[t] != Outside
                   && (WillTest(c, s.places[t]) || (EventAlive(s.world, c.event) && Signaled(s.world, c.event)))
  }

  /** In every reachable state with a free section: the tasks that want it can take it by
      themselves exactly when one of them is not suspended and either the event is set or that
      task is going to test again anyway. So after a task was woken by the event and suspended
      before its test, the others block until it is resumed or another task arrives. */
  lemma FreeSectionTakeableExactly(c: Section, s: State, steps: seq<Step>)
    requires Initial(c, s) && IsRun(c, s, steps) && After(c, s, steps).lockCount == 0
    ensures Takeable(c, After(c, s, steps)) <==> SomeoneWillTest(c, After(c, s, steps))
  {
    InitialInv(c, s);
    RunKeepsInv(c, s, steps);
    var r := After(c, s, steps);
    if SomeoneWillTest(c, r) {
      var t :| 0 <= t < |r.places| && !r.suspended[t] && r.places[t] != Outside
               && (WillTest(c, r.places[t]) || Signaled(r.world, c.event));
      var path := PathToTest(c, r, t);
      assert After(c, r, path).lockCount != 0;
    }
    if Takeable(c, r) && !SomeoneWillTest(c, r) {
      var path :| IsRun(c, r, path) && (forall i :: 0 <= i < |path| ==> Unaided(path[i]))
          && After(c, r, path).lockCount != 0;
      StuckStaysStuck(c, r, path);
    }
  }

  lemma {:induction false} StuckStaysStuck(c: Section, s: State, steps: seq<Step>)
    requires Inv(c, s) && s.lockCount == 0 && !SomeoneWillTest(c, s)
    requires IsRun(c, s, steps) && forall i :: 0 <= i < |steps| ==> Unaided(steps[i])
    ensures After(c, s, steps).lockCount == 0
    decreases |steps|
  {
    if steps != [] {
      assert Unaided(steps[0]);
      StepKeepsInv(c, s, steps[0]);
      StuckStep(c, s, steps[0]);
      StuckStaysStuck(c, Next(c, s, steps[0]), steps[1..]);
    }
  }

  lemma StuckStep(c: Section, s: State, step: Step)
    requires Inv(c, s) && s.lockCount == 0 && !SomeoneWillTest(c, s) && Enabled(c, s, step) && Unaided(step)
    ensures var r := Next(c, s, step); r.lockCount == 0 && !SomeoneWillTest(c, r)
  {
    StepKeepsEvent(c, s, step);
    var r := Next(c, s, step);
    if step.ByTask? {
      var t := step.task;
      assert s.places[t] == Inside ==> t in Holders(s.places);
      assert !s.suspended[t] && s.places[t] != Outside;
      assert !WillTest(c, s.places[t]) && !Signaled(s.world, c.event);
    }
  }

  /** How a task takes a free section. */
  lemma PathToTest(c: Section, s: State, t: nat) returns (path: seq<Step>)
    requires Inv(c, s) && s.lockCount == 0 && t < |s.places| && !s.suspended[t] && s.places[t] != Outside
    requires WillTest(c, s.places[t]) || Signaled(s.world, c.event)
    ensures IsRun(c, s, path) && After(c, s, path).lockCount != 0
    ensures forall i :: 0 <= i < |path| ==> Unaided(path[i])
    decreases match s.places[t] case FoundTaken(_) => 4 case Blocked => 3 case Resumed(_) => 2 case _ => 1
  {
    assert s.places[t] == Inside ==> t in Holders(s.places);
    var step := ByTask(t, match s.places[t]
                          case FoundTaken(i) => if i < c.spinLock as nat then Spin else Register
                          case Blocked => Wake
                          case Resumed(_) => Return
                          case _ => Test);
    SingleWaitConsumesEvent(s.world, c.event, c.event, false);
    StepKeepsInv(c, s, step);
    var next := Next(c, s, step);
    if s.places[t].LoopTop? {
      path := [step];
      assert path[1..] == [];
      assert After(c, next, []) == next;
    } else {
      var rest := PathToTest(c, next, t);
      path := [step] + rest;
      assert path[1..] == rest;
    }
  }

  // ---- a run that blocks -----------------------------------------------------

  const EVENT_HANDLE := Create(EVENT, 0)

  const NO_SPIN := Section(0, EVENT_HANDLE)

  function Three(lockCount: Word, isSet: bool, a: Place, b: Place, d: Place): State {
    State(lockCount, World([Some(Event(isSet, false, 0))], [], []), [a, b, d], [false, false, false])
  }

  ghost predicate Leads(s: State, steps: seq<Step>, r: State) {
    IsRun(NO_SPIN, s, steps) && After(NO_SPIN, s, steps) == r
  }

  lemma OneMore(s: State, step: Step, next: State, steps: seq<Step>, r: State)
    requires Enabled(NO_SPIN, s, step) && Next(NO_SPIN, s, step) == next && Leads(next, steps, r)
    ensures Leads(s, [step] + steps, r)
  {
    assert ([step] + steps)[1..] == steps;
  }

  /** Task 0 is inside; task 1 has used up the initial setting of the event and waits, and so
      does task 2. */
  const FIRST_PART :=
    [ByTask(0, Arrive), ByTask(0, Test),
     ByTask(1, Arrive), ByTask(1, Test), ByTask(1, Register), ByTask(1, Wake), ByTask(1, Return),
     ByTask(1, Test), ByTask(1, Register),
     ByTask(2, Arrive), ByTask(2, Test), ByTask(2, Register)]

  /** The holder leaves, task 1 is woken and suspended before its test. */
  const SECOND_PART := [ByTask(0, Leave), ByTask(1, Wake), Suspend(1)]

  const START := Three(0, true, Outside, Outside, Outside)

  const STUCK := Three(0, false, Outside, Resumed(true), Blocked).(suspended := [false, true, false])

  lemma EventHandleParts()
    ensures TypeOf(EVENT_HANDLE) == EVENT && IdOf(EVENT_HANDLE) == 0
  {
    RoundTrip(EVENT, 0, 0);
  }

  /** The states along the run. */
  function Along(): (s: seq<State>)
  {
    [Three(0, true, Outside, Outside, Outside),
     Three(0, true, LoopTop(0), Outside, Outside),
     Three(1, true, Inside, Outside, Outside),
     Three(1, true, Inside, LoopTop(0), Outside),
     Three(1, true, Inside, FoundTaken(0), Outside),
     Three(1, true, Inside, Blocked, Outside),
     Three(1, false, Inside, Resumed(true), Outside),
     Three(1, false, Inside, LoopTop(0), Outside),
     Three(1, false, Inside, FoundTaken(0), Outside),
     Three(1, false, Inside, Blocked, Outside),
     Three(1, false, Inside, Blocked, LoopTop(0)),
     Three(1, false, Inside, Blocked, FoundTaken(0)),
     Three(1, false, Inside, Blocked, Blocked),
     Three(0, true, Outside, Blocked, Blocked),
     Three(0, false, Outside, Resumed(true), Blocked),
     STUCK]
  }

  lemma AlongTheRun(i: nat)
    requires i < 15
    ensures |Along()| == 16 && |FIRST_PART + SECOND_PART| == 15
    ensures Enabled(NO_SPIN, Along()[i], (FIRST_PART + SECOND_PART)[i])
    ensures Next(NO_SPIN, Along()[i], (FIRST_PART + SECOND_PART)[i]) == Along()[i + 1]
  {
    if i < 5 {
      UpToFirstWait(i);
    } else if i < 10 {
      UpToSecondWait(i);
    } else {
      UpToSuspension(i);
    }
  }

  lemma UpToFirstWait(i: nat)
    requires i < 5
    ensures |Along()| == 16 && |FIRST_PART + SECOND_PART| == 15
    ensures Enabled(NO_SPIN, Along()[i], (FIRST_PART + SECOND_PART)[i])
    ensures Next(NO_SPIN, Along()[i], (FIRST_PART + SECOND_PART)[i]) == Along()[i + 1]
  {
    EventHandleParts();
    hide EVENT_HANDLE, TypeOf, IdOf;
  }

  lemma UpToSecondWait(i: nat)
    requires 5 <= i < 10
    ensures |Along()| == 16 && |FIRST_PART + SECOND_PART| == 15
    ensures Enabled(NO_SPIN, Along()[i], (FIRST_PART + SECOND_PART)[i])
    ensures Next(NO_SPIN, Along()[i], (FIRST_PART + SECOND_PART)[i]) == Along()[i + 1]
  {
    EventHandleParts();
    hide EVENT_HANDLE, TypeOf, IdOf;
  }

  lemma UpToSuspension(i: nat)
    requires 10 <= i < 15
    ensures |Along()| == 16 && |FIRST_PART + SECOND_PART| == 15
    ensures Enabled(NO_SPIN, Along()[i], (FIRST_PART + SECOND_PART)[i])
    ensures Next(NO_SPIN, Along()[i], (FIRST_PART + SECOND_PART)[i]) == Along()[i + 1]
  {
    EventHandleParts();
    hide EVENT_HANDLE, TypeOf, IdOf;
  }

  lemma {:induction false} RestOfRun(i: nat)
    requires i <= 15
    ensures |Along()| == 16 && |FIRST_PART + SECOND_PART| == 15
    ensures Leads(Along()[i], (FIRST_PART + SECOND_PART)[i..], STUCK)
    decreases 15 - i
  {
    var run := FIRST_PART + SECOND_PART;
    if i < 15 {
      AlongTheRun(i);
      RestOfRun(i + 1);
      OneMore(Along()[i], run[i], Along()[i + 1], run[i + 1..], STUCK);
      assert [run[i]] + run[i + 1..] == run[i..];
    } else {
      assert run[15..] == [];
    }
  }

  /** Suspending a task that the event has just woken blocks the free section: the one task
      that waits for it has no step until somebody is resumed or arrives. */
  lemma SuspensionCanBlock()
    ensures Initial(NO_SPIN, START) && IsRun(NO_SPIN, START, FIRST_PART + SECOND_PART)
    ensures var r := After(NO_SPIN, START, FIRST_PART + SECOND_PART);
            && r.lockCount == 0 && r.places == [Outside, Resumed(true), Blocked] && r.suspended == [false, true, false]
            && !Takeable(NO_SPIN, r)
            && forall action :: action != Arrive ==> !Enabled(NO_SPIN, r, ByTask(2, action))
  {
    hide Initial, IsRun, After, Enabled, Takeable, SomeoneWillTest, EVENT_HANDLE, FIRST_PART, SECOND_PART;
    RestOfRun(0);
    assert (FIRST_PART + SECOND_PART)[0..] == FIRST_PART + SECOND_PART;
    StartIsInitial();
    NobodyWillTest();
    BlockedTaskHasNoStep();
    FreeSectionTakeableExactly(NO_SPIN, START, FIRST_PART + SECOND_PART);
  }

  lemma StartIsInitial()
    ensures Initial(NO_SPIN, START) && Along()[0] == START
  {
    EventHandleParts();
    hide EVENT_HANDLE, TypeOf, IdOf;
  }

  lemma NobodyWillTest()
    ensures !SomeoneWillTest(NO_SPIN, STUCK)
  {
    EventHandleParts();
    hide EVENT_HANDLE, TypeOf, IdOf;
  }

  lemma BlockedTaskHasNoStep()
    ensures forall action :: action != Arrive ==> !Enabled(NO_SPIN, STUCK, ByTask(2, action))
  {
    EventHandleParts();
    hide EVENT_HANDLE, TypeOf, IdOf;
  }

  /** Steps a task can still make before it tests a free section. */
  function Distance(p: Place): nat {
    match p
    case Outside => 5
    case FoundTaken(_) => 4
    case Blocked => 3
    case Resumed(_) => 2
    case LoopTop(_) => 1
    case Inside => 0
  }

  function TotalDistance(places: seq<Place>): (d: nat)
    ensures d <= 5 * |places|
  {
    if places == [] then 0 else Distance(places[0]) + TotalDistance(places[1..])
  }

  lemma {:induction false} DistanceAfter(places: seq<Place>, t: nat, p: Place)
    requires t < |places|
    ensures TotalDistance(places[t := p]) == TotalDistance(places) - Distance(places[t]) + Distance(p)
  {
    if t == 0 {
      assert places[t := p][1..] == places[1..];
    } else {
      assert places[t := p][1..] == places[1..][t - 1 := p];
      DistanceAfter(places[1..], t - 1, p);
    }
  }

  /** The section stays free all along a run. */
  ghost predicate StaysFree(c: Section, s: State, steps: seq<Step>)
    requires IsRun(c, s, steps)
    decreases |steps|
  {
    s.lockCount == 0 && (steps == [] || StaysFree(c, Next(c, s, steps[0]), steps[1..]))
  }

  ghost function TaskSteps(steps: seq<Step>): nat {
    if steps == [] then 0 else (if steps[0].ByTask? then 1 else 0) + TaskSteps(steps[1..])
  }

  /** A free section is taken after a bounded number of steps, whoever runs: along any run that
      leaves it free the tasks make no more than five steps each. Together with
      `SomeoneCanMove` this rules out both deadlock and livelock around a free section. */
  lemma {:induction false} FreeSectionIsTakenSoon(c: Section, s: State, steps: seq<Step>)
    requires Inv(c, s) && IsRun(c, s, steps) && StaysFree(c, s, steps)
    ensures TaskSteps(steps) <= TotalDistance(s.places) <= 5 * |s.places|
    decreases |steps|
  {
    if steps != [] {
      var r := Next(c, s, steps[0]);
      StepKeepsInv(c, s, steps[0]);
      FreeSectionIsTakenSoon(c, r, steps[1..]);
      if steps[0].ByTask? || steps[0].Suspend? {
        var t := steps[0].task;
        assert s.places[t] == Inside ==> t in Holders(s.places);
        assert r.places == s.places[t := r.places[t]];
        DistanceAfter(s.places, t, r.places[t]);
      }
    }
  }
}

module CriticalSections {
  import opened Slots
  import opened Handles
  import opened SignalWorld
  import opened SectionProtocol
  import opened EventPools
  import opened KernelLocks

  class CriticalSection {
    const lock: KernelLock
    const events: EventPool
    var lockCount: Word
    var spinLock: Word
    var event: Word

    ghost predicate Valid()
      reads this, lock, events, events.events, events.events.data, events.events.status
    {
      events.Valid() && events.events.maxSize < 0x1_0000 && EventAlive(World(), event)
    }

    /** Only the events matter to the section. */
    ghost function World(): World
      reads this, events, events.events, events.events.data, events.events.status
      requires events.Valid()
    {
      SignalWorld.World(events.View(), [], [])
    }

    /** The context is plain memory until `Init` is called. */
    constructor (lock: KernelLock, events: EventPool)
      ensures this.lock == lock && this.events == events
    {
      this.lock := lock;
      this.events := events;
      lockCount, spinLock, event := 0, 0, 0;
    }

    /** Fails exactly when no event can be created; otherwise the protocol's initial state. */
    method Init(spins: Word) returns (done: bool)
      requires events.Valid() && events.events.maxSize < 0x1_0000
      modifies this, lock, events.events.data, events.events.status
      ensures lock.interlock == old(lock.interlock)
      ensures !done <==> forall i :: 0 <= i < events.events.maxSize ==> old(events.View())[i].Some?
      ensures done ==> Valid() && Initial(Section(spinLock, event), State(lockCount, World(), [], []))
      ensures done ==> spinLock == spins
      ensures done ==> old(events.View())[IdOf(event)] == None
      ensures forall i :: 0 <= i < events.events.maxSize && !(done && i == IdOf(event)) ==>
                events.View()[i] == old(events.View())[i]
    {
      hide TypeOf, IdOf, Handles.Create, Decremented;
      lock.Enter();
      var id := CreateSetEvent();
      if id == None {
        lock.Leave();
        return false;
      }
      event := Create(EVENT, id.value);
      RoundTrip(EVENT, id.value, event);
      lockCount := 0;
      spinLock := spins;
      lock.Leave();
      return true;
    }

    /** An auto-reset event that starts out set. */
    method CreateSetEvent() returns (id: Option<nat>)
      requires events.Valid()
      modifies events.events.data, events.events.status
      ensures id == None <==> forall i :: 0 <= i < events.events.maxSize ==> old(events.View())[i].Some?
      ensures match id
              case None => events.View() == old(events.View())
              case Some(i) => i < events.events.maxSize && old(events.View())[i] == None
                              && events.View() == old(events.View())[i := Some(Event(true, false, 0))]
    {
      id := events.Create(false, 0);
      if id.Some? {
        events.Set(id.value);
      }
    }

    /** One turn of `enter`'s loop up to the return or the end of the locked region. */
    method TryEnter() returns (taken: bool)
      requires Valid()
      modifies this`lockCount, lock
      ensures Valid() && lock.interlock == old(lock.interlock)
      ensures (lockCount, taken) == Tested(old(lockCount))
    {
      lock.Enter();
      if lockCount == 0 {
        lockCount := lockCount + 1;
        lock.Leave();
        return true;
      }
      lock.Leave();
      return false;
    }

    method Leave()
      requires Valid()
      modifies this`lockCount, lock, events.events.data
      ensures Valid() && lock.interlock == old(lock.interlock)
      ensures (lockCount, World()) == Left(old(lockCount), old(World()), event)
    {
      lock.Enter();
      lockCount := Decremented(lockCount);
      if lockCount == 0 {
        events.Set(IdOf(event));
      }
      lock.Leave();
    }

    /** The loop of `enter` up to its return or its wait. `others(k)` is what the other tasks
        leave in the counter before the `k`-th test. Either a test sees zero and takes the
        section, or exactly `spinLock + 1` tests have failed and the task goes on to wait. */
    method SpinUntilWait(others: nat -> Word) returns (acquired: bool, tests: nat)
      requires Valid()
      modifies this`lockCount, lock
      ensures Valid() && lock.interlock == old(lock.interlock)
      ensures 1 <= tests <= spinLock as nat + 1
      ensures forall k :: 0 <= k < tests - 1 ==> others(k) != 0
      ensures acquired <==> others(tests - 1) == 0
      ensures acquired ==> lockCount == 1
      ensures !acquired ==> tests == spinLock as nat + 1 && lockCount == others(tests - 1)
    {
      var i: Word := 0;
      tests := 0;
      while true
        invariant Valid() && lock.interlock == old(lock.interlock)
        invariant tests == i as nat && i <= spinLock
        invariant forall k :: 0 <= k < tests ==> others(k) != 0
        decreases spinLock - i
      {
        lockCount := others(tests);
        var taken := TryEnter();
        tests := tests + 1;
        if taken {
          return true, tests;
        }
        if i >= spinLock {
          return false, tests;
        } else {
          i := i + 1;
        }
      }
    }
  }
}
