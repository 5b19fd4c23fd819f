/** The task pool (source/task/task.hpp): an arena of task records. */
module TaskPools {
  import opened Slots
  import opened Handles
  import opened MemoryBuffers
  import opened Scheduler

  class TaskPool {
    const data: MemoryBuffer<Task>

    /** The objects this one is made of. */
    ghost const Repr: set<object>

    ghost predicate Valid()
      reads Repr
    {
      {data, data.data, data.status} <= Repr && data.Valid()
    }

    /** Which ids are in use. */
    ghost function Live(): (live: seq<bool>)
      reads Repr
      requires Valid()
      ensures |live| == data.maxSize
    {
      data.status[..]
    }

    /** All records; a freed one keeps its contents. */
    ghost function Records(): (records: seq<Task>)
      reads Repr
      requires Valid()
      ensures |records| == data.maxSize
    {
      data.data[..]
    }

    constructor (maxSize: nat)
      ensures Valid() && fresh(Repr) && data.maxSize == maxSize
      ensures forall t :: 0 <= t < maxSize ==> !Live()[t]
    {
      var buffer := new MemoryBuffer<Task>(maxSize);
      data := buffer;
      Repr := {buffer, buffer.data, buffer.status};
      new;
      assert forall t :: 0 <= t < maxSize ==> t !in Slots.Live(data.status[..]);
    }

    /** A record under the least free id, with a fresh stack frame; nothing without a routine or
        when every id is in use. */
    method Create(hasRoutine: bool, priority: Priority, suspended: bool) returns (id: Option<nat>)
      requires Valid()
      modifies Repr
      ensures Valid()
      ensures id == None <==> !hasRoutine || |Slots.Live(old(Live()))| == data.maxSize
      ensures id == None ==> Live() == old(Live()) && Records() == old(Records())
      ensures id.Some? ==>
                var t, was := id.value, old(Records());
                && t == LeastFree(old(Live())) < data.maxSize && Live() == old(Live())[t := true]
                && Records() == was[t := was[t].(sp := was[t].frame, priority := priority,
                                                state := if suspended then Suspended else Ready)]
    {
      if !hasRoutine {
        return None;
      }
      FullExactlyWhenAllLive(data.status[..]);
      id := data.Allocate();
      if id.Some? {
        var task := data.At(id.value);
        data.Put(id.value, task.(sp := task.frame, priority := priority,
            state := if suspended then Suspended else Ready));
      }
    }

    method Destroy(t: nat)
      requires Valid() && t < |Live()|
      modifies Repr
      ensures Valid() && Live() == old(Live())[t := false] && Records() == old(Records())
    {
      data.Free(t);
    }

    /** Reading a record: only one in use may be read. */
    method Read(t: nat) returns (task: Task)
      requires Valid() && t < |Live()| && Live()[t]
      ensures task == Records()[t]
    {
      task := data.At(t);
    }

    method Write(t: nat, task: Task)
      requires Valid() && t < |Live()| && Live()[t]
      modifies Repr
      ensures Valid() && Live() == old(Live()) && Records() == old(Records())[t := task]
    {
      data.Put(t, task);
    }

    /** The context handler works on addresses it was given earlier, not on ids in use. */
    method SaveContext(t: nat, registers: Registers)
      requires Valid() && t < |Records()|
      modifies Repr
      ensures Valid() && Live() == old(Live())
      ensures Records() == old(Records())[t := old(Records())[t].(context := registers)]
    {
      data.data[t] := data.data[t].(context := registers);
    }

    method SavedContext(t: nat) returns (registers: Registers)
      requires Valid() && t < |Records()|
      ensures registers == Records()[t].context
    {
      registers := data.data[t].context;
    }
  }
}
