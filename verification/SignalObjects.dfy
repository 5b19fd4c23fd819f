/** The event and timer pools and the calls that test and consume signals
    (source/event/event.hpp, source/timer/timer.hpp, source/handle/handle.hpp). */
module EventPools {
  import opened Slots
  import opened SignalWorld
  import opened MemoryBuffers

  class EventPool {
    const events: MemoryBuffer<Event>

    ghost predicate Valid()
      reads this, events
    {
      events.Valid()
    }

    ghost function View(): seq<Option<Event>>
      reads this, events, events.data, events.status
      requires Valid()
    {
      events.View()
    }

    constructor (maxSize: nat)
      ensures Valid() && events.maxSize == maxSize
      ensures fresh(events) && fresh(events.data) && fresh(events.status)
      ensures forall i :: 0 <= i < maxSize ==> View()[i] == None
    {
      events := new MemoryBuffer<Event>(maxSize);
      new;
      assert forall i :: 0 <= i < maxSize ==> i !in Live(events.status[..]);
    }

    /** A new event is reset; creation fails exactly when every slot holds a live event. */
    method Create(manualReset: bool, name: nat) returns (id: Option<nat>)
      requires Valid()
      modifies events.data, events.status
      ensures id == None <==> forall i :: 0 <= i < events.maxSize ==> old(View())[i].Some?
      ensures match id
              case None => View() == old(View())
              case Some(i) => i < events.maxSize && old(View())[i] == None
                              && View() == old(View())[i := Some(Event(false, manualReset, name))]
    {
      FullExactlyWhenAllLive(events.status[..]);
      ghost var least := LeastFree(events.status[..]);
      assert least < events.maxSize ==> View()[least] == None;
      assert least == events.maxSize ==> forall i :: 0 <= i < events.maxSize ==> events.status[..][i];
      id := events.Allocate();
      if id.Some? {
        events.Put(id.value, Event(false, manualReset, name));
      }
    }

    method Open(name: nat) returns (id: Option<nat>)
      requires Valid() && name != 0
      ensures match id
              case Some(i) =>
                && Has(View(), i) && View()[i].value.name == name
                && forall j :: 0 <= j < i && View()[j].Some? ==> View()[j].value.name != name
              case None => forall j :: 0 <= j < |View()| && View()[j].Some? ==> View()[j].value.name != name
    {
      for i := 0 to events.maxSize
        invariant forall j :: 0 <= j < i && View()[j].Some? ==> View()[j].value.name != name
      {
        var used := events.IsAllocated(i);
        if used {
          var event := events.At(i);
          if name == event.name {
            return Some(i);
          }
        }
      }
      return None;
    }

    method Destroy(id: nat)
      requires Valid() && id < events.maxSize
      modifies events.status
      ensures View() == old(View())[id := None]
    {
      events.Free(id);
    }

    method Set(id: nat)
      requires Valid() && Has(View(), id)
      modifies events.data
      ensures View() == old(View())[id := Some(old(View())[id].value.(isSet := true))]
    {
      var event := events.At(id);
      events.Put(id, event.(isSet := true));
    }

    method Reset(id: nat)
      requires Valid() && Has(View(), id)
      modifies events.data
      ensures View() == old(View())[id := Some(old(View())[id].value.(isSet := false))]
    {
      var event := events.At(id);
      events.Put(id, event.(isSet := false));
    }

    /** Resets an auto-reset event; a manual-reset one stays as it is. */
    method ManualReset(id: nat)
      requires Valid() && Has(View(), id)
      modifies events.data
      ensures var event := old(View())[id].value;
              View() == old(View())[id := Some(event.(isSet := event.isSet && event.manualReset))]
    {
      var event := events.At(id);
      if !event.manualReset {
        events.Put(id, event.(isSet := false));
      }
    }

    method IsSignaled(id: nat) returns (signaled: bool)
      requires Valid() && Has(View(), id)
      ensures signaled == View()[id].value.isSet
    {
      var event := events.At(id);
      signaled := event.isSet;
    }
  }
}

module TimerPools {
  import opened Slots
  import opened Handles
  import opened SignalWorld
  import opened WaitConditions
  import opened MemoryBuffers

  class TimerPool {
    const timers: MemoryBuffer<Timer>

    ghost predicate Valid()
      reads this, timers
    {
      timers.Valid()
    }

    ghost function View(): seq<Option<Timer>>
      reads this, timers, timers.data, timers.status
      requires Valid()
    {
      timers.View()
    }

    constructor (maxSize: nat)
      ensures Valid() && timers.maxSize == maxSize
      ensures fresh(timers) && fresh(timers.data) && fresh(timers.status)
    {
      timers := new MemoryBuffer<Timer>(maxSize);
    }

    /** A new timer is stopped; creation fails exactly when every slot holds a live timer. */
    method Create(start: Word, interval: Word) returns (id: Option<nat>)
      requires Valid()
      modifies timers.data, timers.status
      ensures id == None <==> forall i :: 0 <= i < timers.maxSize ==> old(View())[i].Some?
      ensures match id
              case None => View() == old(View())
              case Some(i) => i < timers.maxSize && old(View())[i] == None
                              && View() == old(View())[i := Some(Timer(start, interval, start, Stopped))]
    {
      FullExactlyWhenAllLive(timers.status[..]);
      ghost var least := LeastFree(timers.status[..]);
      assert least < timers.maxSize ==> View()[least] == None;
      assert least == timers.maxSize ==> forall i :: 0 <= i < timers.maxSize ==> timers.status[..][i];
      id := timers.Allocate();
      if id.Some? {
        timers.Put(id.value, Timer(start, interval, start, Stopped));
      }
    }

    method Destroy(id: nat)
      requires Valid() && id < timers.maxSize
      modifies timers.status
      ensures View() == old(View())[id := None]
    {
      timers.Free(id);
    }

    /** Counts from the time the timer was created with or last restarted at. */
    method Start(id: nat)
      requires Valid() && Has(View(), id)
      modifies timers.data
      ensures View() == old(View())[id := Some(old(View())[id].value.(state := Started))]
    {
      var timer := timers.At(id);
      timers.Put(id, timer.(state := Started));
    }

    /** Counts from the last tick on. */
    method Restart(id: nat)
      requires Valid() && Has(View(), id)
      modifies timers.data
      ensures var timer := old(View())[id].value;
              View() == old(View())[id := Some(timer.(start := timer.current, state := Started))]
    {
      var timer := timers.At(id);
      timers.Put(id, timer.(start := timer.current, state := Started));
    }

    method Stop(id: nat)
      requires Valid() && Has(View(), id)
      modifies timers.data
      ensures View() == old(View())[id := Some(old(View())[id].value.(state := Stopped))]
    {
      var timer := timers.At(id);
      timers.Put(id, timer.(state := Stopped));
    }

    method GetState(id: nat) returns (state: TimerState)
      requires Valid() && Has(View(), id)
      ensures state == View()[id].value.state
    {
      var timer := timers.At(id);
      state := timer.state;
    }

    /** Every live timer sees the new time; the started ones whose interval passed finish. */
    method Tick(now: Word)
      requires Valid()
      modifies timers.data
      ensures forall i :: 0 <= i < timers.maxSize ==>
                View()[i] == match old(View())[i]
                             case None => None
                             case Some(t) => Some(Ticked(t, now))
    {
      for i := 0 to timers.maxSize
        invariant forall k :: 0 <= k < timers.maxSize ==>
                    timers.data[k] == (if k < i && timers.status[k] then Ticked(old(timers.data[k]), now)
                                       else old(timers.data[k]))
      {
        var used := timers.IsAllocated(i);
        if used {
          var timer := timers.At(i);
          timer := timer.(current := now);
          if timer.state == Started {
            if Elapsed(timer.current, timer.start) > timer.interval {
              timer := timer.(state := Finished);
            }
          }
          timers.Put(i, timer);
        }
      }
    }
  }
}

module SignalObjects {
  import opened Slots
  import opened Handles
  import opened SignalWorld
  import opened WaitConditions
  import opened EventPools
  import opened TimerPools
  import opened StaticQueues

  /** The three pools a wait can refer to. */
  class Signals {
    const events: EventPool
    const timers: TimerPool
    const queues: QueuePool

    /** The objects this one is made of. */
    ghost const Repr: set<object>

    ghost predicate Valid()
      reads Repr
    {
      && {events, events.events, events.events.data, events.events.status} <= Repr
      && {timers, timers.timers, timers.timers.data, timers.timers.status} <= Repr
      && {queues, queues.queues, queues.queues.data, queues.queues.status} <= Repr
      && events.Valid() && timers.Valid() && queues.Valid()
    }

    ghost function World(): World
      reads Repr
      requires Valid()
    {
      SignalWorld.World(events.View(), timers.View(), Sizes(queues.queues.View()))
    }

    static ghost function Sizes(view: seq<Option<ByteRings.Queue>>): (s: seq<Option<nat>>)
      ensures |s| == |view|
      ensures forall i :: 0 <= i < |view| ==>
                s[i] == match view[i] case None => None case Some(q) => Some(q.size)
    {
      seq(|view|, i requires 0 <= i < |view| => match view[i] case None => None case Some(q) => Some(q.size))
    }

    constructor (events: EventPool, timers: TimerPool, queues: QueuePool)
      requires events.Valid() && timers.Valid() && queues.Valid()
      ensures Valid() && this.events == events && this.timers == timers && this.queues == queues
    {
      this.events := events;
      this.timers := timers;
      this.queues := queues;
      Repr := {events, events.events, events.events.data, events.events.status,
               timers, timers.timers, timers.timers.data, timers.timers.status,
               queues, queues.queues, queues.queues.data, queues.queues.status};
    }

    /** Says whether the handle's type is supported and its object signaled; changes nothing. */
    method TestCondition(h: Word) returns (supported: bool, fulfilled: bool)
      requires Valid() && Alive(World(), h)
      ensures supported == Supported(h)
      ensures fulfilled == Signaled(World(), h)
      ensures supported <==> TypeOf(h) in {EVENT, TIMER, QUEUE}
      ensures TypeOf(h) == EVENT ==> fulfilled == events.View()[IdOf(h)].value.isSet
      ensures TypeOf(h) == TIMER ==> fulfilled == (timers.View()[IdOf(h)].value.state == Finished)
      ensures TypeOf(h) == QUEUE ==> queues.IsLive(IdOf(h)) && fulfilled == (queues.Elements(IdOf(h)) != [])
      ensures !supported ==> !fulfilled
    {
      var kind := TypeOf(h);
      fulfilled := false;
      if kind == EVENT {
        fulfilled := events.IsSignaled(IdOf(h));
      } else if kind == TIMER {
        var state := timers.GetState(IdOf(h));
        if state == Finished {
          fulfilled := true;
        }
      } else if kind == QUEUE {
        var empty := queues.IsEmpty(IdOf(h));
        if !empty {
          fulfilled := true;
        }
      } else {
        return false, fulfilled;
      }
      return true, fulfilled;
    }

    method ResetState(h: Word)
      requires Valid() && Alive(World(), h)
      modifies events.events.data, timers.timers.data
      ensures Valid() && World() == Consume(old(World()), h)
      ensures TakenFrom(old(World()), [h], World())
    {
      ConsumeExactly(World(), h);
      var kind := TypeOf(h);
      if kind == EVENT {
        events.ManualReset(IdOf(h));
      } else if kind == TIMER {
        timers.Stop(IdOf(h));
      }
    }

    /** The loop over a wait's handles comes upon an unsupported one. */
    static ghost predicate StopsAt(w: World, hs: seq<Word>, waitForAll: bool, i: nat)
      requires i < |hs| && forall h :: h in hs ==> Alive(w, h)
    {
      && !Supported(hs[i]) && (waitForAll || i == 0)
      && forall j :: 0 <= j < i ==> Signaled(w, hs[j])
    }

    /** Where the loop ends decides whether it ended on an unsupported handle. */
    static lemma StopsHereOrNowhere(w: World, hs: seq<Word>, waitForAll: bool, i: nat)
      requires i <= |hs| && forall h :: h in hs ==> Alive(w, h)
      requires forall h :: h in hs[..i] ==> Signaled(w, h)
      requires i < |hs| ==> !Signaled(w, hs[i]) || (!waitForAll && i == 0)
      ensures (exists j :: 0 <= j < |hs| && StopsAt(w, hs, waitForAll, j))
              <==> i < |hs| && !Supported(hs[i]) && (waitForAll || i == 0)
    {
      assert forall j :: 0 <= j < i ==> hs[j] in hs[..i];
      if i < |hs| && !Supported(hs[i]) && (waitForAll || i == 0) {
        assert StopsAt(w, hs, waitForAll, i);
      }
    }

    /** The loop over a wait's handles; the result is left unset while the wait goes on,
        except for an unsupported handle. */
    method TestWaitSignals(hs: seq<Word>, waitForAll: bool)
        returns (fulfilled: bool, result: Option<WaitResult>, index: nat)
      requires Valid() && hs != [] && forall h :: h in hs ==> Alive(World(), h)
      modifies events.events.data, timers.timers.data
      ensures Valid()
      ensures World() == SignalVerdict(old(World()), hs, waitForAll).world
      ensures fulfilled <==> SignalVerdict(old(World()), hs, waitForAll).Woken?
      ensures fulfilled ==> result == Some(ObjectSet) && index == SignalVerdict(old(World()), hs, waitForAll).index
      ensures !fulfilled ==> index == 0 && (result == None || result == Some(WaitFailed))
      ensures result == Some(WaitFailed) <==> exists i :: 0 <= i < |hs| && StopsAt(old(World()), hs, waitForAll, i)
    {
      hide StopsAt, Alive;
      index := 0;
      for i := 0 to |hs|
        invariant Valid() && World() == old(World()) && index == 0
        invariant !waitForAll ==> i == 0
        invariant forall h :: h in hs[..i] ==> Signaled(World(), h)
      {
        assert hs[i] in hs;
        var supported, condition := TestCondition(hs[i]);
        if !waitForAll || !condition {
          StopsHereOrNowhere(World(), hs, waitForAll, i);
        }
        if !supported {
          return false, Some(WaitFailed), index;
        }
        if !waitForAll {
          if condition {
            ResetState(hs[i]);
            return true, Some(ObjectSet), i;
          } else {
            return false, None, index;
          }
        } else {
          if !condition {
            return false, None, index;
          }
        }
        assert hs[..i + 1] == hs[..i] + [hs[i]];
      }
      assert hs[..|hs|] == hs;
      StopsHereOrNowhere(World(), hs, waitForAll, |hs|);
      ghost var w := World();
      for i := 0 to |hs|
        invariant Valid() && World() == ConsumeAll(w, hs[..i])
      {
        assert hs[i] in hs;
        ResetState(hs[i]);
        assert hs[..i + 1][..i] == hs[..i];
      }
      return true, Some(ObjectSet), index;
    }

    /** Whether the conditions of a wait are met at time `now`; if so what the task is told. */
    method Check(c: Conditions, now: Word) returns (fulfilled: bool, result: WaitResult, index: nat)
      requires Valid() && Waitable(World(), c)
      modifies Repr
      ensures Valid()
      ensures World() == WaitConditions.Check(old(World()), c, now).world
      ensures fulfilled <==> WaitConditions.Check(old(World()), c, now).Woken?
      ensures fulfilled ==>
                var v := WaitConditions.Check(old(World()), c, now); result == v.result && index == v.index
    {
      hide Alive, StopsAt;
      match c {
        case Sleep(interval, start) =>
          return Elapsed(now, start) > interval, ObjectSet, 0;
        case WaitForObj(hs, waitForAll, waitForever, interval, start) =>
          if !waitForever {
            if Elapsed(now, start) > interval {
              return true, TimeoutOccurred, 0;
            }
          }
          var met, answer, at := TestWaitSignals(hs, waitForAll);
          return met, if answer.Some? then answer.value else WaitFailed, at;
      }
    }

    method TickTimers(now: Word)
      requires Valid()
      modifies Repr
      ensures Valid()
      ensures World() == SignalWorld.TickTimers(old(World()), now)
    {
      timers.Tick(now);
      assert World().timers == SignalWorld.TickTimers(old(World()), now).timers;
    }
  }
}
