/** The ready list of one priority (source/scheduler/ready_list.hpp): a circular list of
    task ids and the node whose task is to be served. */
module ReadyRings {
  import opened Slots
  import opened Rings

  /** Task ids in list order and the position being served (0 in an empty list). */
  datatype TaskRing = TaskRing(tasks: seq<nat>, at: nat)

  const EMPTY_RING := TaskRing([], 0)

  ghost predicate RingOk(r: TaskRing) {
    && Distinct(r.tasks)
    && (if r.tasks == [] then r.at == 0 else r.at < |r.tasks|)
  }

  /** Refused for a task already listed and in a full list. */
  function AddTask(maxSize: nat, r: TaskRing, task: nat): Option<TaskRing> {
    if task in r.tasks || |r.tasks| >= maxSize then None
    else Some(TaskRing(r.tasks + [task], r.at))
  }

  /** Removing the served task hands its turn to the next one. */
  function RemoveTask(r: TaskRing, task: nat): TaskRing {
    if task !in r.tasks then r
    else
      var k := IndexOf(r.tasks, task);
      var rest := Delete(r.tasks, k);
      TaskRing(rest, if r.at > k then r.at - 1 else if r.at == k && k == |rest| then 0 else r.at)
  }

  /** `findNextTask` moves on to the next task and serves it. */
  function Advance(r: TaskRing): TaskRing
    requires r.tasks != [] ==> r.at < |r.tasks|
  {
    if r.tasks == [] then r else r.(at := After(r.at, |r.tasks|))
  }

  function Served(r: TaskRing): Option<nat>
    requires r.tasks != [] ==> r.at < |r.tasks|
  {
    if r.tasks == [] then None else Some(r.tasks[r.at])
  }

  lemma OperationsKeepRing(maxSize: nat, r: TaskRing, task: nat)
    requires RingOk(r)
    ensures RingOk(Advance(r)) && RingOk(RemoveTask(r, task))
    ensures AddTask(maxSize, r, task).Some? ==> RingOk(AddTask(maxSize, r, task).value)
    ensures forall t :: t in RemoveTask(r, task).tasks <==> t in r.tasks && t != task
  {
    if task in r.tasks {
      DeleteMembers(r.tasks, IndexOf(r.tasks, task));
    }
  }

  /** The highest priority with a ready task; 4 when there is none. */
  function FirstReady(ready: seq<TaskRing>): (p: nat)
    ensures p <= |ready|
    ensures p < |ready| ==> ready[p].tasks != []
    ensures forall q :: 0 <= q < p ==> ready[q].tasks == []
  {
    if ready == [] then 0
    else if ready[0].tasks != [] then 0
    else 1 + FirstReady(ready[1..])
  }

  lemma FirstReadyIs(ready: seq<TaskRing>, p: nat)
    requires p <= |ready|
    requires forall q :: 0 <= q < p ==> ready[q].tasks == []
    ensures p < |ready| && ready[p].tasks != [] ==> FirstReady(ready) == p
    ensures p == |ready| ==> FirstReady(ready) == p
  {
  }

  // ---- round robin --------------------------------------------------------

  /** The order in which the tasks would be served, the one being served first. */
  ghost function Turn(r: TaskRing): seq<nat>
    requires r.at <= |r.tasks|
  {
    r.tasks[r.at..] + r.tasks[..r.at]
  }

  /** The tasks chosen by `n` successive calls of `findNextTask`. */
  ghost function Chosen(r: TaskRing, n: nat): seq<nat>
    requires RingOk(r) && r.tasks != []
    decreases n
  {
    if n == 0 then []
    else
      var next := Advance(r);
      [next.tasks[next.at]] + Chosen(next, n - 1)
  }

  lemma {:induction false} ChosenAt(r: TaskRing, n: nat, i: nat)
    requires RingOk(r) && r.tasks != [] && i < n <= |r.tasks|
    ensures |Chosen(r, n)| == n
    ensures var k := r.at + 1 + i;
            Chosen(r, n)[i] == r.tasks[if k < |r.tasks| then k else k - |r.tasks|]
    decreases n
  {
    if n == 1 {
      assert Chosen(Advance(r), 0) == [];
    } else {
      ChosenAt(Advance(r), n - 1, if i == 0 then 0 else i - 1);
    }
  }

  /** The position `i` places after the one being served. */
  function Place(r: TaskRing, i: nat): (k: nat)
    requires r.at < |r.tasks| && i < |r.tasks|
    ensures k < |r.tasks|
  {
    if r.at + i < |r.tasks| then r.at + i else r.at + i - |r.tasks|
  }

  lemma TurnAt(r: TaskRing, i: nat)
    requires RingOk(r) && i < |r.tasks|
    ensures |Turn(r)| == |r.tasks| && Turn(r)[i] == r.tasks[Place(r, i)]
  {
  }

  lemma TurnIsPermutation(r: TaskRing)
    requires RingOk(r)
    ensures Distinct(Turn(r))
    ensures forall t :: t in Turn(r) <==> t in r.tasks
  {
    assert r.tasks == r.tasks[..r.at] + r.tasks[r.at..];
    forall i, j | 0 <= i < j < |Turn(r)| ensures Turn(r)[i] != Turn(r)[j] {
      TurnAt(r, i);
      TurnAt(r, j);
    }
  }

  lemma AdvanceRotates(r: TaskRing)
    requires RingOk(r) && r.tasks != []
    ensures Turn(r) != [] && RingOk(Advance(r))
    ensures Turn(Advance(r)) == Turn(r)[1..] + [Turn(r)[0]]
    ensures Served(Advance(r)) == Some(Turn(Advance(r))[0])
  {
  }

  /** Round robin: as many calls as there are tasks serve each of them exactly once, the task
      served now coming last. */
  lemma RoundRobinServesEachOnce(r: TaskRing)
    requires RingOk(r) && r.tasks != []
    ensures Chosen(r, |r.tasks|) == Turn(Advance(r))
    ensures Distinct(Chosen(r, |r.tasks|))
    ensures forall t :: t in Chosen(r, |r.tasks|) <==> t in r.tasks
    ensures |Chosen(r, |r.tasks|)| == |r.tasks|
    ensures Chosen(r, |r.tasks|)[|r.tasks| - 1] == r.tasks[r.at]
  {
    var n := |r.tasks|;
    ChosenAt(r, n, n - 1);
    forall i | 0 <= i < n ensures Chosen(r, n)[i] == Turn(Advance(r))[i] {
      ChosenAt(r, n, i);
      TurnAt(Advance(r), i);
    }
    TurnIsPermutation(Advance(r));
  }

  /** Taking a task out deletes it from the turn and disturbs no one else's place in it. */
  lemma RemoveKeepsTurn(r: TaskRing, task: nat)
    requires RingOk(r) && task in r.tasks
    ensures RingOk(RemoveTask(r, task)) && task in Turn(r)
    ensures Turn(RemoveTask(r, task)) == Delete(Turn(r), IndexOf(Turn(r), task))
  {
    hide RemoveTask, Place;
    RemovedPlace(r, task);
    TurnIsPermutation(r);
    OperationsKeepRing(0, r, task);
    var s := RemoveTask(r, task);
    var place := IndexOf(Turn(r), task);
    TurnAt(r, place);
    forall i | 0 <= i < |s.tasks| ensures Turn(s)[i] == Delete(Turn(r), place)[i] {
      TurnAt(s, i);
      TurnAt(r, if i < place then i else i + 1);
      PlaceAfterRemoval(r, task, place, i);
    }
  }

  lemma RemovedPlace(r: TaskRing, task: nat)
    requires RingOk(r) && task in r.tasks
    ensures |RemoveTask(r, task).tasks| == |r.tasks| - 1
  {
  }

  lemma PlaceAfterRemoval(r: TaskRing, task: nat, place: nat, i: nat)
    requires RingOk(r) && place < |r.tasks| && task == r.tasks[Place(r, place)] && i < |r.tasks| - 1
    ensures var s := RemoveTask(r, task);
            && s.at < |s.tasks| == |r.tasks| - 1
            && s.tasks[Place(s, i)] == r.tasks[Place(r, if i < place then i else i + 1)]
  {
    assert IndexOf(r.tasks, task) == Place(r, place);
  }

  /** A task made ready joins behind the list's end: every task that was to be served before
      the list wraps keeps its place. */
  lemma AddJoinsAtWrap(maxSize: nat, r: TaskRing, task: nat)
    requires RingOk(r)
    ensures AddTask(maxSize, r, task) == None <==> task in r.tasks || |r.tasks| >= maxSize
    ensures match AddTask(maxSize, r, task)
            case None => true
            case Some(s) =>
              && RingOk(s)
              && Turn(s) == r.tasks[r.at..] + [task] + r.tasks[..r.at]
              && RemoveTask(s, task) == r
  {
    OperationsKeepRing(maxSize, r, task);
    if task !in r.tasks && |r.tasks| < maxSize {
      var s := AddTask(maxSize, r, task).value;
      assert s.tasks[r.at..] == r.tasks[r.at..] + [task];
      assert s.tasks[..r.at] == r.tasks[..r.at];
      AddThenRemove(r, task);
      hide RingOk, RemoveTask;
    }
  }

  lemma AddThenRemove(r: TaskRing, task: nat)
    requires RingOk(r) && task !in r.tasks
    ensures RemoveTask(TaskRing(r.tasks + [task], r.at), task) == r
  {
    assert IndexOf(r.tasks + [task], task) == |r.tasks|;
    assert Delete(r.tasks + [task], |r.tasks|) == r.tasks;
  }
}

module ReadyLists {
  import opened Slots
  import opened Rings
  import opened ReadyRings
  import opened CircularLists

  class TaskList {
    const list: CircularList<nat>
    var current: nat

    /** The objects this one is made of. */
    ghost function Repr(): set<object> {
      {this, list, list.buffer, list.buffer.data, list.buffer.status}
    }

    ghost predicate Valid()
      reads this, list, list.buffer, list.buffer.data, list.buffer.status
    {
      && list.Valid()
      && Distinct(list.Values())
      && (list.ids != [] ==> current in list.ids)
    }

    ghost function View(): (r: TaskRing)
      reads this, list, list.buffer, list.buffer.data, list.buffer.status
      requires Valid()
      ensures RingOk(r)
    {
      TaskRing(list.Values(), if list.ids == [] then 0 else IndexOf(list.ids, current))
    }

    constructor (maxSize: nat)
      ensures Valid() && list.buffer.maxSize == maxSize
      ensures fresh(list) && fresh(list.buffer) && fresh(list.buffer.data) && fresh(list.buffer.status)
      ensures View() == EMPTY_RING
    {
      list := new CircularList<nat>(maxSize);
      current := 0;
    }

    method AddTask(task: nat) returns (added: bool)
      requires Valid()
      modifies this, list, list.buffer.data, list.buffer.status
      ensures Valid()
      ensures var result := ReadyRings.AddTask(list.buffer.maxSize, old(View()), task);
              && added == result.Some?
              && View() == (if added then result.value else old(View()))
    {
      hide Linked, Contents, Distinct, RingOk, AddTo, Zip, InUse, IndexOf;
      LinkedIdsDistinct(list.buffer.data[..], list.ids);
      ghost var ids, values := list.ids, list.Values();
      var count := list.count;
      var found := list.Find(task);
      if found.Some? {
        return false;
      }
      var node := list.Add(task);
      if node == None {
        return false;
      }
      JoinKeepsTurn(ids, values, node.value, task, current);
      if count == 0 {
        current := node.value;
      }
      return true;
    }

    method RemoveTask(task: nat)
      requires Valid()
      modifies this, list, list.buffer.data, list.buffer.status
      ensures Valid()
      ensures View() == ReadyRings.RemoveTask(old(View()), task)
    {
      hide Linked, Contents, Distinct, Delete, After;
      var count := list.count;
      var found := list.Find(task);
      if found.Some? {
        ghost var ids, values, was := list.ids, list.Values(), current;
        ghost var k := IndexOf(values, task);
        LinkedIdsDistinct(list.buffer.data[..], ids);
        NodeOfValue(ids, k);
        if current == found.value {
          if count > 1 {
            current := list.NextIndex(found.value);
          }
        }
        TurnPasses(ids, values, k, was, current);
        list.Remove(found.value);
        assert list.ids == Delete(ids, k) && list.Values() == Delete(values, k);
      }
    }

    /** A new node at the end moves no one's place. */
    static lemma JoinKeepsTurn(ids: seq<nat>, values: seq<nat>, node: nat, task: nat, current: nat)
      requires Distinct(values) && task !in values
      ensures Distinct(values + [task])
      ensures current in ids ==> current in ids + [node] && IndexOf(ids + [node], current) == IndexOf(ids, current)
      ensures ids == [] ==> node in ids + [node] && IndexOf(ids + [node], node) == 0
    {
      var longer := ids + [node];
      if current in ids {
        assert longer[IndexOf(ids, current)] == current;
        assert forall p :: 0 <= p < |ids| ==> longer[p] == ids[p];
      }
      assert longer[|ids|] == node;
    }

    static lemma LinkedIdsDistinct(nodes: seq<Node<nat>>, ids: seq<nat>)
      requires Linked(nodes, ids)
      ensures Distinct(ids)
    {
    }

    static lemma NodeOfValue(ids: seq<nat>, k: nat)
      requires Distinct(ids) && k < |ids|
      ensures ids[k] in ids && IndexOf(ids, ids[k]) == k
    {
    }

    /** Where the served node stands after node `k` goes. */
    static lemma TurnPasses(ids: seq<nat>, values: seq<nat>, k: nat, was: nat, now: nat)
      requires Distinct(ids) && Distinct(values) && |ids| == |values| && k < |ids| && was in ids
      requires now == if was == ids[k] && |ids| > 1 then ids[After(k, |ids|)] else was
      ensures IndexOf(ids, ids[k]) == k && Distinct(Delete(values, k))
      ensures Delete(ids, k) != [] ==> now in Delete(ids, k)
      ensures TaskRing(Delete(values, k), if Delete(ids, k) == [] then 0 else IndexOf(Delete(ids, k), now))
              == ReadyRings.RemoveTask(TaskRing(values, IndexOf(ids, was)), values[k])
    {
      DeleteMembers(values, k);
      assert IndexOf(values, values[k]) == k;
      if |ids| > 1 {
        assert IndexOf(ids, ids[After(k, |ids|)]) == After(k, |ids|);
        DeleteShifts(ids, k, now);
      }
    }

    method FindNextTask() returns (task: Option<nat>)
      requires Valid()
      modifies this
      ensures Valid()
      ensures View() == Advance(old(View()))
      ensures task == Served(View())
    {
      var count := list.count;
      if count > 1 {
        current := list.NextIndex(current);
        var id := list.At(current);
        task := Some(id);
      } else if count == 1 {
        var id := list.At(current);
        task := Some(id);
      } else {
        task := None;
      }
    }

    method FindCurrentTask() returns (task: Option<nat>)
      requires Valid()
      ensures task == Served(View())
    {
      if list.count > 0 {
        var id := list.At(current);
        task := Some(id);
      } else {
        task := None;
      }
    }
  }

  /** The ready lists of all priorities. */
  class ReadyList {
    const lists: seq<TaskList>
    const maxSize: nat
    ghost const Repr: set<object>

    ghost predicate Valid()
      reads Repr
    {
      && |lists| == 4
      && (forall p :: 0 <= p < 4 ==>
            lists[p].Repr() <= Repr && lists[p].Valid() && lists[p].list.buffer.maxSize == maxSize)
      && (forall p, q :: 0 <= p < q < 4 ==> lists[p].Repr() !! lists[q].Repr())
    }

    ghost function View(): (v: seq<TaskRing>)
      reads Repr
      requires Valid()
      ensures |v| == 4 && forall p :: 0 <= p < 4 ==> v[p] == lists[p].View() && RingOk(v[p])
    {
      hide TaskList.Valid, TaskList.View, RingOk;
      [lists[0].View(), lists[1].View(), lists[2].View(), lists[3].View()]
    }

    constructor (maxSize: nat)
      ensures Valid() && this.maxSize == maxSize && fresh(Repr)
      ensures View() == [EMPTY_RING, EMPTY_RING, EMPTY_RING, EMPTY_RING]
    {
      hide TaskList.Valid, TaskList.View, TaskList.Repr, RingOk;
      var empty := EmptyLists(maxSize);
      this.maxSize := maxSize;
      lists := empty;
      Repr := empty[0].Repr() + empty[1].Repr() + empty[2].Repr() + empty[3].Repr();
    }

    static method EmptyLists(maxSize: nat) returns (lists: seq<TaskList>)
      ensures |lists| == 4
      ensures forall p :: 0 <= p < 4 ==>
                fresh(lists[p].Repr()) && lists[p].Valid() && lists[p].list.buffer.maxSize == maxSize
                && lists[p].View() == EMPTY_RING
      ensures forall p, q :: 0 <= p < q < 4 ==> lists[p].Repr() !! lists[q].Repr()
    {
      hide TaskList.Valid, TaskList.View, RingOk;
      lists := [];
      for priority := 0 to 4
        invariant |lists| == priority
        invariant forall p :: 0 <= p < priority ==>
                    fresh(lists[p].Repr()) && lists[p].Valid() && lists[p].list.buffer.maxSize == maxSize
                    && lists[p].View() == EMPTY_RING
        invariant forall p, q :: 0 <= p < q < priority ==> lists[p].Repr() !! lists[q].Repr()
      {
        var list := new TaskList(maxSize);
        assert forall p :: 0 <= p < priority ==> lists[p].Repr() !! list.Repr();
        lists := lists + [list];
      }
    }

    method AddTask(priority: nat, task: nat) returns (added: bool)
      requires Valid() && priority < 4
      modifies Repr
      ensures Valid()
      ensures var result := ReadyRings.AddTask(maxSize, old(View())[priority], task);
              && added == result.Some?
              && View() == (if added then old(View())[priority := result.value] else old(View()))
    {
      hide TaskList.Valid, TaskList.View, ReadyRings.AddTask, RingOk;
      added := lists[priority].AddTask(task);
      assert forall p :: 0 <= p < 4 && p != priority ==> lists[p].View() == old(lists[p].View());
    }

    method RemoveTask(priority: nat, task: nat)
      requires Valid() && priority < 4
      modifies Repr
      ensures Valid()
      ensures View() == old(View())[priority := ReadyRings.RemoveTask(old(View())[priority], task)]
    {
      hide TaskList.Valid, TaskList.View, ReadyRings.RemoveTask, RingOk;
      lists[priority].RemoveTask(task);
      assert forall p :: 0 <= p < 4 && p != priority ==> lists[p].View() == old(lists[p].View());
    }

    method FindNextTask(priority: nat) returns (task: Option<nat>)
      requires Valid() && priority < 4
      modifies Repr
      ensures Valid()
      ensures View() == old(View())[priority := Advance(old(View())[priority])]
      ensures task == Served(View()[priority])
    {
      hide TaskList.Valid, TaskList.View, Advance, Served, RingOk;
      task := lists[priority].FindNextTask();
      assert forall p :: 0 <= p < 4 && p != priority ==> lists[p].View() == old(lists[p].View());
    }

    method FindCurrentTask(priority: nat) returns (task: Option<nat>)
      requires Valid() && priority < 4
      ensures task == Served(View()[priority])
    {
      task := lists[priority].FindCurrentTask();
    }

    /** Looks through the priorities, highest first, for the task being served. */
    method FindServed() returns (task: Option<nat>)
      requires Valid()
      ensures var p := FirstReady(View());
              task == if p < 4 then Served(View()[p]) else None
    {
      hide Valid, View;
      for priority := 0 to 4
        invariant forall p :: 0 <= p < priority ==> View()[p].tasks == []
      {
        var found := FindCurrentTask(priority);
        if found.Some? {
          FirstReadyIs(View(), priority);
          return found;
        }
      }
      FirstReadyIs(View(), 4);
      return None;
    }

    /** The same search, moving the list that is found on to its next task. */
    method MoveOn() returns (task: Option<nat>)
      requires Valid()
      modifies Repr
      ensures Valid()
      ensures var p := FirstReady(old(View()));
              && FirstReady(View()) == p
              && View() == (if p < 4 then old(View())[p := Advance(old(View())[p])] else old(View()))
              && task == if p < 4 then Served(View()[p]) else None
    {
      hide Valid, View;
      ghost var before := View();
      for priority := 0 to 4
        invariant Valid() && View() == before
        invariant forall p :: 0 <= p < priority ==> before[p].tasks == []
      {
        var found := FindNextTask(priority);
        if found.Some? {
          FirstReadyIs(before, priority);
          FirstReadyIs(View(), priority);
          return found;
        }
        assert View() == before;
      }
      FirstReadyIs(before, 4);
      return None;
    }
  }
}
