/** Handles pack an object's type and index into one word (source/handle/handle.hpp). */
module Handles {

  newtype Word = w: int | 0 <= w < 0x1_0000_0000

  /** 32-bit `++` and `--`. */
  function Incremented(x: Word): Word {
    if x == 0xFFFF_FFFF then 0 else x + 1
  }

  function Decremented(x: Word): Word {
    if x == 0 then 0xFFFF_FFFF else x - 1
  }

  const TASK: nat := 0
  const TIMER: nat := 1
  const EVENT: nat := 2
  const QUEUE: nat := 3

  /** The low 16 bits of both numbers; a left shift by 16 drops the rest of the type. */
  function Create(kind: nat, index: nat): Word {
    ((kind % 0x1_0000) * 0x1_0000 + index % 0x1_0000) as Word
  }

  function TypeOf(h: Word): (kind: nat)
    ensures kind < 0x1_0000
  {
    h as nat / 0x1_0000
  }

  function IdOf(h: Word): (index: nat)
    ensures index < 0x1_0000
  {
    h as nat % 0x1_0000
  }

  /** The accessors undo `create` exactly for numbers that fit in 16 bits, and `create` undoes
      the accessors for every handle. */
  lemma RoundTrip(kind: nat, index: nat, h: Word)
    ensures TypeOf(Create(kind, index)) == kind <==> kind < 0x1_0000
    ensures IdOf(Create(kind, index)) == index <==> index < 0x1_0000
    ensures Create(TypeOf(h), IdOf(h)) == h
  {
  }

  /** The type is the high half of the word, the index the low half. */
  lemma HandleLayout(h: Word)
    ensures h as nat == TypeOf(h) * 0x1_0000 + IdOf(h)
  {
  }

  lemma SameParts(h: Word, g: Word)
    requires TypeOf(h) == TypeOf(g) && IdOf(h) == IdOf(g)
    ensures h == g
  {
  }

  /** Two handles are equal exactly when both numbers agree in their low 16 bits. */
  lemma Injective(kind: nat, index: nat, kind': nat, index': nat)
    ensures Create(kind, index) == Create(kind', index')
            <==> kind % 0x1_0000 == kind' % 0x1_0000 && index % 0x1_0000 == index' % 0x1_0000
  {
    var h, h' := Create(kind, index), Create(kind', index');
    assert TypeOf(h) == kind % 0x1_0000 && IdOf(h) == index % 0x1_0000;
    assert TypeOf(h') == kind' % 0x1_0000 && IdOf(h') == index' % 0x1_0000;
  }
}

/** What a waiting task can observe: events, timers and queues by index. */
module SignalWorld {
  import opened Slots
  import opened Handles

  datatype Event = Event(isSet: bool, manualReset: bool, name: nat)

  datatype TimerState = Stopped | Started | Finished

  datatype Timer = Timer(start: Word, interval: Word, current: Word, state: TimerState)

  /** Milliseconds between two readings of the 32-bit clock. */
  function Elapsed(now: Word, start: Word): Word {
    ((now as int - start as int) % 0x1_0000_0000) as Word
  }

  /** The 32-bit clock at a time counted without bound. */
  function Clock(time: nat): Word {
    (time % 0x1_0000_0000) as Word
  }

  lemma ElapsedSurvivesWrap(start: nat, now: nat)
    requires start <= now < start + 0x1_0000_0000
    ensures Elapsed(Clock(now), Clock(start)) as nat == now - start
  {
    var m := 0x1_0000_0000;
    assert now == m * (now / m) + now % m && start == m * (start / m) + start % m;
    var d := now % m - start % m;
    assert d == (now - start) - m * (now / m - start / m);
    RemainderUnique(d, now - start, now / m - start / m);
  }

  lemma RemainderUnique(d: int, r: nat, k: int)
    requires r < 0x1_0000_0000 && d == r - 0x1_0000_0000 * k
    ensures d % 0x1_0000_0000 == r
  {
  }

  /** One tick of a live timer at time `now`. */
  function Ticked(t: Timer, now: Word): (r: Timer)
    ensures r.state == Finished <==>
              t.state == Finished || (t.state == Started && Elapsed(now, t.start) > t.interval)
    ensures t.state != Started ==> r.state == t.state
    ensures r.start == t.start && r.interval == t.interval && r.current == now
  {
    t.(current := now,
       state := if t.state == Started && Elapsed(now, t.start) > t.interval then Finished else t.state)
  }

  /** Ticks at successive times. */
  function TickedOver(t: Timer, times: seq<nat>): (r: Timer)
    decreases |times|
  {
    if times == [] then t else Ticked(TickedOver(t, times[..|times| - 1]), Clock(times[|times| - 1]))
  }

  /** A started timer is finished exactly from the first tick that finds more than its interval
      gone since its start; its start and interval never change, and it shows the last tick's
      time. A timer that is not started stays as it is. */
  lemma {:induction false} TimerRunsOutExactly(t: Timer, start: nat, times: seq<nat>)
    requires t.start == Clock(start)
    requires forall i :: 0 <= i < |times| ==> start <= times[i] < start + 0x1_0000_0000
    ensures var r := TickedOver(t, times);
            && r.start == t.start && r.interval == t.interval
            && r.current == (if times == [] then t.current else Clock(times[|times| - 1]))
            && r.state == if t.state == Started && exists i :: 0 <= i < |times| && times[i] - start > t.interval as nat
                          then Finished else t.state
    decreases |times|
  {
    if times != [] {
      var front, last := times[..|times| - 1], times[|times| - 1];
      TimerRunsOutExactly(t, start, front);
      ElapsedSurvivesWrap(start, last);
      assert forall i :: 0 <= i < |front| ==> times[i] == front[i];
      assert (exists i :: 0 <= i < |times| && times[i] - start > t.interval as nat) <==>
             last - start > t.interval as nat || exists i :: 0 <= i < |front| && front[i] - start > t.interval as nat;
      hide Elapsed, Clock;
    }
  }

  /** Objects by index; of a queue only the number of queued elements matters here. */
  datatype World = World(
    events: seq<Option<Event>>,
    timers: seq<Option<Timer>>,
    queues: seq<Option<nat>>)

  predicate Has<T>(pool: seq<Option<T>>, index: nat) {
    index < |pool| && pool[index].Some?
  }

  /** Only handles of these types can be waited for. */
  predicate Supported(h: Word) {
    TypeOf(h) == EVENT || TypeOf(h) == TIMER || TypeOf(h) == QUEUE
  }

  /** Using a destroyed object is undefined: a handle must name a live one. */
  predicate Alive(w: World, h: Word) {
    && (TypeOf(h) == EVENT ==> Has(w.events, IdOf(h)))
    && (TypeOf(h) == TIMER ==> Has(w.timers, IdOf(h)))
    && (TypeOf(h) == QUEUE ==> Has(w.queues, IdOf(h)))
  }

  /** Event set, timer finished, queue not empty; nothing else is ever signaled. */
  predicate Signaled(w: World, h: Word)
    requires Alive(w, h)
  {
    if TypeOf(h) == EVENT then w.events[IdOf(h)].value.isSet
    else if TypeOf(h) == TIMER then w.timers[IdOf(h)].value.state == Finished
    else if TypeOf(h) == QUEUE then w.queues[IdOf(h)].value != 0
    else false
  }

  /** Every live timer sees the new time. */
  function TickTimers(w: World, now: Word): (r: World)
    ensures |r.timers| == |w.timers| && r.events == w.events && r.queues == w.queues
    ensures forall i :: 0 <= i < |w.timers| ==>
              r.timers[i] == match w.timers[i] case None => None case Some(t) => Some(Ticked(t, now))
    ensures forall h :: Alive(w, h) <==> Alive(r, h)
  {
    w.(timers := seq(|w.timers|, i requires 0 <= i < |w.timers| =>
      match w.timers[i] case None => None case Some(t) => Some(Ticked(t, now))))
  }

  /** A wait that ends on this object takes its signal away. */
  predicate Consumable(w: World, h: Word)
    requires Alive(w, h)
  {
    || (TypeOf(h) == EVENT && !w.events[IdOf(h)].value.manualReset)
    || TypeOf(h) == TIMER
  }

  function Consume(w: World, h: Word): (r: World)
    requires Alive(w, h)
    ensures |r.events| == |w.events| && |r.timers| == |w.timers| && r.queues == w.queues
    ensures forall g :: Alive(w, g) <==> Alive(r, g)
  {
    var i := IdOf(h);
    if TypeOf(h) == EVENT && !w.events[i].value.manualReset then
      w.(events := w.events[i := Some(w.events[i].value.(isSet := false))])
    else if TypeOf(h) == TIMER then
      w.(timers := w.timers[i := Some(w.timers[i].value.(state := Stopped))])
    else w
  }

  /** Some handle of the list is that of the object of a kind at an index. */
  ghost predicate Names(hs: seq<Word>, kind: nat, index: nat) {
    exists h :: h in hs && TypeOf(h) == kind && IdOf(h) == index
  }

  /** Taking the signals of some objects: their auto-reset events are reset and keep their kind
      and name, their timers are stopped and keep start, interval and time; every other object
      is as it was. */
  ghost predicate TakenFrom(w: World, hs: seq<Word>, r: World) {
    && |r.events| == |w.events| && |r.timers| == |w.timers| && r.queues == w.queues
    && (forall i :: 0 <= i < |w.events| ==>
          r.events[i] == if w.events[i].Some? && !w.events[i].value.manualReset && Names(hs, EVENT, i)
                         then Some(Event(false, false, w.events[i].value.name)) else w.events[i])
    && (forall i :: 0 <= i < |w.timers| ==>
          r.timers[i] == if w.timers[i].Some? && Names(hs, TIMER, i)
                         then Some(Timer(w.timers[i].value.start, w.timers[i].value.interval,
                                         w.timers[i].value.current, Stopped))
                         else w.timers[i])
  }

  lemma ConsumeExactly(w: World, h: Word)
    requires Alive(w, h)
    ensures TakenFrom(w, [h], Consume(w, h))
  {
    var r := Consume(w, h);
    forall kind, index ensures Names([h], kind, index) <==> TypeOf(h) == kind && IdOf(h) == index {
      assert h in [h];
    }
    hide TypeOf, IdOf;
  }

  /** A timer whose signal was taken is not signaled again by any number of ticks. */
  lemma {:induction false} TakenTimerStaysQuiet(w: World, h: Word, times: seq<Word>)
    requires Alive(w, h) && TypeOf(h) == TIMER
    ensures var r := TimersOver(Consume(w, h), times);
            Alive(r, h) && r.timers[IdOf(h)].value.state == Stopped && !Signaled(r, h)
    decreases |times|
  {
    if times != [] {
      TakenTimerStaysQuiet(w, h, times[..|times| - 1]);
    }
    hide TypeOf, IdOf;
  }

  function TimersOver(w: World, times: seq<Word>): (r: World)
    decreases |times|
  {
    if times == [] then w else TickTimers(TimersOver(w, times[..|times| - 1]), times[|times| - 1])
  }

  /** Consuming one handle clears its own condition if it can be cleared, and no other
      handle's condition, whatever its type. */
  lemma ConsumeTouchesOnlyItsObject(w: World, h: Word, g: Word)
    requires Alive(w, h) && Alive(w, g)
    ensures var r := Consume(w, h);
            && Alive(r, g)
            && (Signaled(r, g) <==> Signaled(w, g) && !(g == h && Consumable(w, h)))
            && (Consumable(r, g) <==> Consumable(w, g))
  {
    var i, j := IdOf(h), IdOf(g);
    var r := Consume(w, h);
    if TypeOf(g) == TypeOf(h) && j == i {
      SameParts(h, g);
    } else if TypeOf(g) == EVENT {
      assert r.events[j] == w.events[j];
    } else if TypeOf(g) == TIMER {
      assert r.timers[j] == w.timers[j];
    }
  }

  function ConsumeAll(w: World, hs: seq<Word>): (r: World)
    requires forall h :: h in hs ==> Alive(w, h)
    ensures r.queues == w.queues
    ensures forall g :: Alive(w, g) <==> Alive(r, g)
    decreases |hs|
  {
    if hs == [] then w
    else Consume(ConsumeAll(w, hs[..|hs| - 1]), hs[|hs| - 1])
  }

  lemma {:induction false} ConsumeAllExactly(w: World, hs: seq<Word>)
    requires forall h :: h in hs ==> Alive(w, h)
    ensures TakenFrom(w, hs, ConsumeAll(w, hs))
    decreases |hs|
  {
    if hs != [] {
      var front, last := hs[..|hs| - 1], hs[|hs| - 1];
      assert hs == front + [last];
      ConsumeAllExactly(w, front);
      ConsumeExactly(ConsumeAll(w, front), last);
      forall kind, index ensures Names(hs, kind, index) <==> Names(front, kind, index) || Names([last], kind, index) {
        NamesInTwoParts(front, last, kind, index);
      }
      hide Names, Alive;
    }
  }

  lemma NamesInTwoParts(front: seq<Word>, last: Word, kind: nat, index: nat)
    ensures Names(front + [last], kind, index) <==> Names(front, kind, index) || Names([last], kind, index)
  {
    hide TypeOf, IdOf;
    assert forall h :: h in front + [last] <==> h in front || h in [last];
  }

  lemma {:induction false} ConsumeAllTouchesOnlyThose(w: World, hs: seq<Word>, g: Word)
    requires (forall h :: h in hs ==> Alive(w, h)) && Alive(w, g)
    ensures var r := ConsumeAll(w, hs);
            && Alive(r, g)
            && (Signaled(r, g) <==> Signaled(w, g) && !(g in hs && Consumable(w, g)))
            && (Consumable(r, g) <==> Consumable(w, g))
    decreases |hs|
  {
    if hs == [] {
    } else {
      var front, last := hs[..|hs| - 1], hs[|hs| - 1];
      assert hs == front + [last];
      ConsumeAllTouchesOnlyThose(w, front, g);
      ConsumeAllTouchesOnlyThose(w, front, last);
      ConsumeTouchesOnlyItsObject(ConsumeAll(w, front), last, g);
    }
  }
}

/** Deciding whether a waiting task may go on (source/scheduler/wait_conditions.hpp). */
module WaitConditions {
  import opened Slots
  import opened Handles
  import opened SignalWorld

  datatype WaitResult = ObjectSet | TimeoutOccurred | WaitFailed

  datatype Conditions =
    | Sleep(interval: Word, start: Word)
    | WaitForObj(signals: seq<Word>, waitForAll: bool, waitForever: bool, interval: Word, start: Word)

  /** The verdict on a wait: whether the task goes on, with what it is told, and the objects
      afterwards. */
  datatype Verdict = Waiting(world: World) | Woken(result: WaitResult, index: nat, world: World)

  predicate AllSignaled(w: World, hs: seq<Word>)
    requires forall h :: h in hs ==> Alive(w, h)
  {
    forall h :: h in hs ==> Signaled(w, h)
  }

  ghost predicate Waitable(w: World, c: Conditions) {
    c.WaitForObj? ==> c.signals != [] && forall h :: h in c.signals ==> Alive(w, h)
  }

  /** The signal part: every handle for a wait-for-all, only the first handle otherwise. */
  function SignalVerdict(w: World, hs: seq<Word>, waitForAll: bool): Verdict
    requires hs != [] && forall h :: h in hs ==> Alive(w, h)
  {
    if waitForAll then
      if AllSignaled(w, hs) then Woken(ObjectSet, 0, ConsumeAll(w, hs)) else Waiting(w)
    else
      if Signaled(w, hs[0]) then Woken(ObjectSet, 0, Consume(w, hs[0])) else Waiting(w)
  }

  function Check(w: World, c: Conditions, now: Word): Verdict
    requires Waitable(w, c)
  {
    match c
    case Sleep(interval, start) =>
      if Elapsed(now, start) > interval then Woken(ObjectSet, 0, w) else Waiting(w)
    case WaitForObj(hs, waitForAll, waitForever, interval, start) =>
      if !waitForever && Elapsed(now, start) > interval then Woken(TimeoutOccurred, 0, w)
      else SignalVerdict(w, hs, waitForAll)
  }

  /** More than the time limit has passed. */
  predicate Due(c: Conditions, now: Word) {
    (c.WaitForObj? ==> !c.waitForever) && Elapsed(now, c.start) > c.interval
  }

  /** The objects a wait needs: all of its handles, or only the first. */
  function Needed(c: Conditions): seq<Word>
    requires c.WaitForObj? && c.signals != []
  {
    if c.waitForAll then c.signals else [c.signals[0]]
  }

  /** Every wait, exactly. A sleep ends by its limit and changes nothing. A wait whose limit has
      passed ends with a timeout and changes nothing. Any other wait ends exactly when every
      object it needs is signaled, with index 0, and takes the signals of those objects and of no
      other; while it goes on it changes nothing. */
  lemma CheckExactly(w: World, c: Conditions, now: Word)
    requires Waitable(w, c)
    ensures var v := Check(w, c, now);
            if c.Sleep? then v == if Due(c, now) then Woken(ObjectSet, 0, w) else Waiting(w)
            else if Due(c, now) then v == Woken(TimeoutOccurred, 0, w)
            else
              && (forall h :: h in Needed(c) ==> Alive(w, h))
              && (v.Woken? <==> forall h :: h in Needed(c) ==> Signaled(w, h))
              && (v.Woken? ==> v.result == ObjectSet && v.index == 0 && TakenFrom(w, Needed(c), v.world))
              && (v.Waiting? ==> v.world == w)
  {
    if c.WaitForObj? {
      assert c.signals[0] in c.signals;
      ConsumeAllExactly(w, c.signals);
      ConsumeExactly(w, c.signals[0]);
    }
    hide Alive, Signaled, Consume, ConsumeAll, TakenFrom, Elapsed;
  }

  /** A wait for all is all or nothing: it ends exactly when every object is signaled, then
      takes every signal that can be taken and no one else's, and otherwise takes none. */
  lemma WaitForAllIsAtomic(w: World, hs: seq<Word>, g: Word)
    requires hs != [] && (forall h :: h in hs ==> Alive(w, h)) && Alive(w, g)
    ensures var v := SignalVerdict(w, hs, true);
            && Alive(v.world, g)
            && (v.Woken? <==> forall h :: h in hs ==> Signaled(w, h))
            && (v.Waiting? ==> v.world == w)
            && (v.Woken? ==> (Signaled(v.world, g) <==> Signaled(w, g) && !(g in hs && Consumable(w, g))))
  {
    ConsumeAllTouchesOnlyThose(w, hs, g);
  }

  /** A single wait on an auto-reset event ends exactly when the event is set, and in the same
      step resets that event and changes nothing else. */
  lemma SingleWaitConsumesEvent(w: World, h: Word, g: Word, waitForAll: bool)
    requires TypeOf(h) == EVENT && Alive(w, h) && !w.events[IdOf(h)].value.manualReset && Alive(w, g)
    ensures var v := SignalVerdict(w, [h], waitForAll);
            && Alive(v.world, g)
            && (v.Woken? <==> Signaled(w, h))
            && (v.Woken? ==> v.result == ObjectSet && !Signaled(v.world, h))
            && (g != h || v.Waiting? ==> (Signaled(v.world, g) <==> Signaled(w, g)))
  {
    ConsumeTouchesOnlyItsObject(w, h, g);
    ConsumeTouchesOnlyItsObject(w, h, h);
    assert [h][..0] == [];
    assert ConsumeAll(w, [h][..0]) == w;
    assert ConsumeAll(w, [h]) == Consume(w, h);
  }

  /** What the documentation of the call promises for a wait on any object: the index of the
      first signaled handle, if there is one. */
  function FirstSignaled(w: World, hs: seq<Word>): (k: Option<nat>)
    requires forall h :: h in hs ==> Alive(w, h)
    ensures k.Some? <==> exists h :: h in hs && Signaled(w, h)
    ensures k.Some? ==> k.value < |hs| && Signaled(w, hs[k.value])
                        && forall i :: 0 <= i < k.value ==> !Signaled(w, hs[i])
  {
    if hs == [] then None
    else if Signaled(w, hs[0]) then Some(0)
    else
      match FirstSignaled(w, hs[1..])
      case Some(i) => Some(i + 1)
      case None => None
  }

  function ReportedIndex(v: Verdict): Option<nat> {
    if v.Woken? then Some(v.index) else None
  }

  /** The code looks at the first handle only, so a wait on any object meets the promise
      exactly when that handle is signaled or none is. */
  lemma WaitForAnyMeetsPromiseExactly(w: World, hs: seq<Word>)
    requires hs != [] && forall h :: h in hs ==> Alive(w, h)
    ensures ReportedIndex(SignalVerdict(w, hs, false)) == FirstSignaled(w, hs)
            <==> Signaled(w, hs[0]) || forall h :: h in hs ==> !Signaled(w, h)
  {
    assert hs[0] in hs;
  }

  /** Two events, the second one set: the promise is index 1, the task keeps waiting. */
  lemma WaitForAnyMissesSecondHandle(w: World, a: Word, b: Word)
    requires TypeOf(a) == EVENT && IdOf(a) == 0 && TypeOf(b) == EVENT && IdOf(b) == 1
    requires w.events == [Some(Event(false, false, 0)), Some(Event(true, false, 0))]
    ensures Alive(w, a) && Alive(w, b)
    ensures FirstSignaled(w, [a, b]) == Some(1)
    ensures SignalVerdict(w, [a, b], false) == Waiting(w)
  {
    assert [a, b][1..] == [b];
    assert FirstSignaled(w, [b]) == Some(0);
  }

  /** The code looks at handle `k` of a wait as long as the handles before it are signaled. */
  predicate LooksAt(c: Conditions, k: nat) {
    c.WaitForObj? && k < |c.signals| && (k == 0 || c.waitForAll)
  }

  /** No wait is ever answered with a failure. */
  lemma WaitNeverReportsFailure(w: World, c: Conditions, now: Word)
    requires Waitable(w, c)
    ensures Check(w, c, now).Woken? ==> Check(w, c, now).result != WaitFailed
  {
  }

  /** A wait that looks at a handle of an unsupported type ends exactly when it has a time limit
      and the limit has passed, with a timeout; whatever the objects do, it changes none. */
  lemma UnsupportedWaitExactly(w: World, c: Conditions, now: Word, k: nat)
    requires Waitable(w, c) && LooksAt(c, k) && !Supported(c.signals[k])
    ensures Check(w, c, now) == if !c.waitForever && Elapsed(now, c.start) > c.interval
                                then Woken(TimeoutOccurred, 0, w) else Waiting(w)
  {
    assert c.signals[k] in c.signals;
  }

  lemma TaskHandleUnsupported(id: nat)
    ensures !Supported(Create(TASK, id))
  {
    hide Create, TypeOf;
    RoundTrip(TASK, id, 0);
  }

  /** The handle of a task, as its creation hands it out: waiting for it without a time limit
      is never over. */
  lemma WaitForTaskNeverOver(w: World, id: nat, waitForAll: bool, interval: Word, start: Word, now: Word)
    ensures var c := WaitForObj([Create(TASK, id)], waitForAll, true, interval, start);
            Waitable(w, c) && Check(w, c, now) == Waiting(w)
  {
    var c := WaitForObj([Create(TASK, id)], waitForAll, true, interval, start);
    TaskHandleUnsupported(id);
    UnsupportedWaitExactly(w, c, now, 0);
  }

  /** Time limits are exact across wrap-around of the clock while less than 2^32 ms pass. */
  lemma TimeoutSurvivesWrap(start: nat, now: nat, interval: Word)
    requires start <= now < start + 0x1_0000_0000
    ensures Elapsed(Clock(now), Clock(start)) as nat == now - start
    ensures var w := World([], [], []);
            Check(w, Sleep(interval, Clock(start)), Clock(now)).Woken? <==> now - start > interval as nat
  {
    ElapsedSurvivesWrap(start, now);
  }
}
