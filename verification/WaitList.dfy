/** The wait list (source/scheduler/wait_list.hpp): an arena of waiting tasks and the conditions
    under which they go on. */
module WaitLists {
  import opened Slots
  import opened MemoryBuffers
  import opened Scheduler

  class WaitList {
    const items: MemoryBuffer<WaitItem>

    /** The objects this one is made of. */
    ghost const Repr: set<object>

    ghost predicate Valid()
      reads Repr
    {
      {items, items.data, items.status} <= Repr && items.Valid()
    }

    ghost function View(): (v: seq<Option<WaitItem>>)
      reads Repr
      requires Valid()
      ensures |v| == items.maxSize
    {
      items.View()
    }

    constructor (maxSize: nat)
      ensures Valid() && fresh(Repr) && items.maxSize == maxSize
      ensures forall i :: 0 <= i < maxSize ==> View()[i] == None
    {
      var buffer := new MemoryBuffer<WaitItem>(maxSize);
      items := buffer;
      Repr := {buffer, buffer.data, buffer.status};
      new;
      assert forall i :: 0 <= i < maxSize ==> i !in Live(items.status[..]);
    }

    /** The item in slot `i`, if there is one. */
    method Item(i: nat) returns (item: Option<WaitItem>)
      requires Valid() && i < |View()|
      ensures item == View()[i]
    {
      var used := items.IsAllocated(i);
      if !used {
        return None;
      }
      var stored := items.At(i);
      return Some(stored);
    }

    /** Into the least free slot; false when there is none. */
    method AddTask(item: WaitItem) returns (added: bool)
      requires Valid()
      modifies Repr
      ensures Valid()
      ensures var r := AddWait(old(View()), item);
              added == r.Some? && View() == if added then r.value else old(View())
    {
      ghost var before := View();
      assert SlotsUsed(before) == items.status[..];
      FullExactlyWhenAllLive(items.status[..]);
      var id := items.Allocate();
      if id == None {
        assert View() == before;
        return false;
      }
      items.Put(id.value, item);
      assert View() == before[id.value := Some(item)];
      return true;
    }

    method Free(i: nat)
      requires Valid() && i < |View()|
      modifies Repr
      ensures Valid() && View() == old(View())[i := None]
    {
      items.Free(i);
      assert View() == old(View())[i := None];
    }

    /** Searches for the task and frees the first slot that holds it. */
    method RemoveTask(id: nat)
      requires Valid()
      modifies Repr
      ensures Valid() && View() == RemoveWait(old(View()), id)
    {
      hide Valid, View;
      ghost var before := View();
      for i := 0 to items.maxSize
        invariant Valid() && View() == before
        invariant forall j :: 0 <= j < i ==> !(before[j].Some? && before[j].value.task == id)
      {
        var item := Item(i);
        if item.Some? && item.value.task == id {
          FirstSlotGoes(before, id, i);
          Free(i);
          return;
        }
      }
      FirstSlotGoes(before, id, items.maxSize);
    }

    static lemma {:induction false} FirstSlotGoes(waiting: seq<Option<WaitItem>>, id: nat, i: nat)
      requires i <= |waiting|
      requires forall j :: 0 <= j < i ==> !(waiting[j].Some? && waiting[j].value.task == id)
      requires i < |waiting| ==> waiting[i].Some? && waiting[i].value.task == id
      ensures RemoveWait(waiting, id) == if i < |waiting| then waiting[i := None] else waiting
    {
      if i > 0 {
        FirstSlotGoes(waiting[1..], id, i - 1);
      }
    }
  }
}
