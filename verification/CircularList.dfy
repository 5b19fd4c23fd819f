/** The scheduler's circular list (source/common/circular_list.hpp): a doubly linked ring
    whose links are slot numbers inside a fixed arena. */
module Rings {
  import opened Slots

  datatype Node<T> = Node(next: nat, prev: nat, data: T)

  /** Positions around a ring of `n` nodes. */
  function After(k: nat, n: nat): nat
    requires k < n
  {
    if k + 1 == n then 0 else k + 1
  }

  function Before(k: nat, n: nat): nat
    requires k < n
  {
    if k == 0 then n - 1 else k - 1
  }

  /** The links of `nodes` tie exactly the slots `ids`, in that order, into one ring. */
  ghost predicate Linked<T>(nodes: seq<Node<T>>, ids: seq<nat>) {
    && Distinct(ids)
    && (forall k :: 0 <= k < |ids| ==> ids[k] < |nodes|)
    && (forall k :: 0 <= k < |ids| ==> LinkedAt(nodes, ids, k))
  }

  /** The node at position `k` points to the positions beside it. */
  ghost predicate LinkedAt<T>(nodes: seq<Node<T>>, ids: seq<nat>, k: nat)
    requires k < |ids| && ids[k] < |nodes|
  {
    && nodes[ids[k]].next == ids[After(k, |ids|)]
    && nodes[ids[k]].prev == ids[Before(k, |ids|)]
  }

  ghost function Contents<T>(nodes: seq<Node<T>>, ids: seq<nat>): (c: seq<T>)
    requires forall k :: 0 <= k < |ids| ==> ids[k] < |nodes|
    ensures |c| == |ids|
    ensures forall k :: 0 <= k < |ids| ==> c[k] == nodes[ids[k]].data
  {
    seq(|ids|, k requires 0 <= k < |ids| => nodes[ids[k]].data)
  }

  function Delete<X>(s: seq<X>, k: nat): (r: seq<X>)
    requires k < |s|
    ensures |r| == |s| - 1
    ensures forall i :: 0 <= i < k ==> r[i] == s[i]
    ensures forall i :: k <= i < |r| ==> r[i] == s[i + 1]
  {
    s[..k] + s[k + 1..]
  }

  /** Position of the first occurrence; the length when there is none. */
  function IndexOf<X(==)>(s: seq<X>, x: X): (k: nat)
    ensures k <= |s|
    ensures k < |s| <==> x in s
    ensures k < |s| ==> s[k] == x
    ensures forall i :: 0 <= i < k ==> s[i] != x
  {
    if s == [] then 0
    else if s[0] == x then 0
    else 1 + IndexOf(s[1..], x)
  }

  /** Closing a ring over one more node at its end. */
  lemma LinkAtEnd<T>(nodes: seq<Node<T>>, ids: seq<nat>, added: nat, x: T, after: seq<Node<T>>)
    requires Linked(nodes, ids) && ids != []
    requires added < |nodes| == |after| && added !in ids
    requires var first, last := ids[0], ids[|ids| - 1];
             && after[added] == Node(first, last, x)
             && after[last] == Node(added, if |ids| == 1 then added else nodes[last].prev, nodes[last].data)
             && after[first] == Node(if |ids| == 1 then added else nodes[first].next, added, nodes[first].data)
             && (forall i :: 0 <= i < |nodes| && i != added && i != first && i != last ==> after[i] == nodes[i])
    ensures Linked(after, ids + [added])
    ensures Contents(after, ids + [added]) == Contents(nodes, ids) + [x]
  {
    var longer := ids + [added];
    forall k | 0 <= k < |longer|
      ensures LinkedAt(after, longer, k)
    {
      if k < |ids| {
        assert longer[k] == ids[k] && LinkedAt(nodes, ids, k);
      }
    }
  }

  /** The nodes after the neighbours of position `k` are made to point past it. */
  function Bridge<T>(nodes: seq<Node<T>>, prev: nat, next: nat): (after: seq<Node<T>>)
    requires prev < |nodes| && next < |nodes|
    ensures |after| == |nodes|
    ensures forall i :: 0 <= i < |nodes| ==>
              after[i] == Node(if i == prev then next else nodes[i].next,
                               if i == next then prev else nodes[i].prev,
                               nodes[i].data)
  {
    var bridged := nodes[prev := nodes[prev].(next := next)];
    bridged[next := bridged[next].(prev := prev)]
  }

  /** Bridging the neighbours of one node takes exactly that node out of the ring. */
  lemma Unlink<T>(nodes: seq<Node<T>>, ids: seq<nat>, k: nat)
    requires Linked(nodes, ids) && |ids| > 1 && k < |ids|
    ensures var after := Bridge(nodes, ids[Before(k, |ids|)], ids[After(k, |ids|)]);
            && Linked(after, Delete(ids, k))
            && Contents(after, Delete(ids, k)) == Delete(Contents(nodes, ids), k)
  {
    var after := Bridge(nodes, ids[Before(k, |ids|)], ids[After(k, |ids|)]);
    var shorter := Delete(ids, k);
    DeleteMembers(ids, k);
    forall i | 0 <= i < |shorter|
      ensures LinkedAt(after, shorter, i)
    {
      UnlinkedAt(nodes, ids, k, i);
    }
  }

  lemma UnlinkedAt<T>(nodes: seq<Node<T>>, ids: seq<nat>, k: nat, i: nat)
    requires Linked(nodes, ids) && |ids| > 1 && k < |ids| && i < |ids| - 1
    ensures LinkedAt(Bridge(nodes, ids[Before(k, |ids|)], ids[After(k, |ids|)]), Delete(ids, k), i)
  {
    var n := |ids|;
    var o := if i < k then i else i + 1;
    assert LinkedAt(nodes, ids, o);
    assert ids[o] == ids[Before(k, n)] <==> o == Before(k, n);
    assert ids[o] == ids[After(k, n)] <==> o == After(k, n);
    SkipPosition(n, k, o, i);
  }

  lemma LastNodeGoes<T>(nodes: seq<Node<T>>, ids: seq<nat>)
    requires Linked(nodes, ids) && |ids| == 1
    ensures Linked(nodes, Delete(ids, 0))
    ensures Contents(nodes, Delete(ids, 0)) == Delete(Contents(nodes, ids), 0)
  {
  }

  /** The ends of a ring after position `k` goes, found as the code finds them. */
  lemma EndsAfterUnlink(ids: seq<nat>, k: nat)
    requires Distinct(ids) && |ids| > 1 && k < |ids|
    ensures var n := |ids|;
            && (ids[k] == ids[0] <==> k == 0) && (ids[k] == ids[n - 1] <==> k == n - 1)
            && Delete(ids, k)[0] == (if k == 0 then ids[After(k, n)] else ids[0])
            && Delete(ids, k)[n - 2] == if k == n - 1 then ids[Before(k, n)] else ids[n - 1]
  {
  }

  /** How positions renumber when position `k` of `n` goes: neighbours of `k` meet. */
  lemma SkipPosition(n: nat, k: nat, o: nat, i: nat)
    requires n > 1 && k < n && o < n && o != k && i == if o < k then o else o - 1
    ensures var a := if o == Before(k, n) then After(k, n) else After(o, n);
            a != k && After(i, n - 1) == if a < k then a else a - 1
    ensures var b := if o == After(k, n) then Before(k, n) else Before(o, n);
            b != k && Before(i, n - 1) == if b < k then b else b - 1
  {
  }

  // ---- traversal ----------------------------------------------------------

  /** The `n` slots met by following `m_next` from `from`. */
  ghost function Walk<T>(nodes: seq<Node<T>>, from: nat, n: nat): seq<nat>
    decreases n
  {
    if n == 0 || from >= |nodes| then [] else [from] + Walk(nodes, nodes[from].next, n - 1)
  }

  /** Where `n` steps along `m_next` lead. */
  ghost function Reach<T>(nodes: seq<Node<T>>, from: nat, n: nat): nat
    decreases n
  {
    if n == 0 || from >= |nodes| then from else Reach(nodes, nodes[from].next, n - 1)
  }

  lemma {:induction false} WalkStraight<T>(nodes: seq<Node<T>>, ids: seq<nat>, j: nat, n: nat)
    requires Linked(nodes, ids) && j < |ids| && j + n <= |ids|
    ensures Walk(nodes, ids[j], n) == ids[j..j + n]
    ensures Reach(nodes, ids[j], n) == if j + n == |ids| then ids[0] else ids[j + n]
    decreases n
  {
    if n == 0 {
    } else if n == 1 {
      assert LinkedAt(nodes, ids, j);
      assert Walk(nodes, nodes[ids[j]].next, 0) == [];
      assert Reach(nodes, nodes[ids[j]].next, 0) == nodes[ids[j]].next;
    } else {
      assert LinkedAt(nodes, ids, j);
      WalkStraight(nodes, ids, j + 1, n - 1);
      assert ids[j..j + n] == [ids[j]] + ids[j + 1..j + 1 + (n - 1)];
    }
  }

  lemma {:induction false} WalkSplits<T>(nodes: seq<Node<T>>, from: nat, m: nat, n: nat)
    requires |Walk(nodes, from, m)| == m
    ensures Walk(nodes, from, m + n) == Walk(nodes, from, m) + Walk(nodes, Reach(nodes, from, m), n)
    ensures Reach(nodes, from, m + n) == Reach(nodes, Reach(nodes, from, m), n)
    decreases m
  {
    if m == 0 {
    } else {
      WalkSplits(nodes, nodes[from].next, m - 1, n);
    }
  }

  /** From any member, following `nextIndex` `count()` times meets every member exactly once
      and ends where it began. */
  lemma FullTurn<T>(nodes: seq<Node<T>>, ids: seq<nat>, j: nat)
    requires Linked(nodes, ids) && j < |ids|
    ensures Walk(nodes, ids[j], |ids|) == ids[j..] + ids[..j]
    ensures Distinct(Walk(nodes, ids[j], |ids|))
    ensures forall id :: id in Walk(nodes, ids[j], |ids|) <==> id in ids
    ensures Reach(nodes, ids[j], |ids|) == ids[j]
  {
    RotationKeepsMembers(ids, j);
    hide Distinct, LinkedAt;
    var n := |ids|;
    WalkStraight(nodes, ids, j, n - j);
    WalkStraight(nodes, ids, 0, j);
    assert ids[j..j + (n - j)] == ids[j..] && ids[0..0 + j] == ids[..j];
    WalkSplits(nodes, ids[j], n - j, j);
    assert (n - j) + j == n;
  }

  lemma RotationKeepsMembers(ids: seq<nat>, j: nat)
    requires Distinct(ids) && j < |ids|
    ensures Distinct(ids[j..] + ids[..j])
    ensures forall id :: id in ids[j..] + ids[..j] <==> id in ids
  {
    assert ids == ids[..j] + ids[j..];
  }

  /** A ring and its first node leave no freedom: they determine the whole sequence. */
  lemma RingIsUnique<T>(nodes: seq<Node<T>>, a: seq<nat>, b: seq<nat>)
    requires Linked(nodes, a) && Linked(nodes, b)
    requires a != [] && b != [] && a[0] == b[0]
    ensures a == b
  {
    var n := if |a| <= |b| then |a| else |b|;
    WalkStraight(nodes, a, 0, n);
    WalkStraight(nodes, b, 0, n);
    assert a[0..0 + n] == b[0..0 + n];
    assert forall i :: 0 <= i < n ==> a[i] == a[0..0 + n][i] && b[i] == b[0..0 + n][i];
  }

  // ---- the abstract list --------------------------------------------------

  /** What a caller can observe of one element: its id and its value. */
  datatype Entry<T> = Entry(id: nat, value: T)

  datatype ListOp<T> = Add(value: T) | Remove(id: nat)

  function Ids<T>(list: seq<Entry<T>>): (ids: seq<nat>)
    ensures |ids| == |list|
    ensures forall k :: 0 <= k < |list| ==> ids[k] == list[k].id
  {
    seq(|list|, k requires 0 <= k < |list| => list[k].id)
  }

  function Zip<T>(ids: seq<nat>, values: seq<T>): (list: seq<Entry<T>>)
    requires |ids| == |values|
    ensures Ids(list) == ids
    ensures forall k :: 0 <= k < |list| ==> list[k].value == values[k]
  {
    seq(|ids|, k requires 0 <= k < |ids| => Entry(ids[k], values[k]))
  }

  lemma ZipAppend<T>(ids: seq<nat>, values: seq<T>, id: nat, x: T)
    requires |ids| == |values|
    ensures Zip(ids + [id], values + [x]) == Zip(ids, values) + [Entry(id, x)]
  {
  }

  lemma ZipDelete<T>(ids: seq<nat>, values: seq<T>, k: nat)
    requires |ids| == |values| && k < |ids|
    ensures Zip(Delete(ids, k), Delete(values, k)) == Delete(Zip(ids, values), k)
  {
  }

  /** The arena flags when exactly `ids` are in use. */
  function InUse(maxSize: nat, ids: seq<nat>): (status: seq<bool>)
    ensures |status| == maxSize
    ensures forall i :: 0 <= i < maxSize ==> (status[i] <==> i in ids)
  {
    seq(maxSize, i => i in ids)
  }

  lemma InUseChanges(maxSize: nat, ids: seq<nat>, k: nat, id: nat)
    requires Distinct(ids) && forall i :: 0 <= i < |ids| ==> ids[i] < maxSize
    ensures k < |ids| ==> InUse(maxSize, ids)[ids[k] := false] == InUse(maxSize, Delete(ids, k))
    ensures id < maxSize ==> InUse(maxSize, ids)[id := true] == InUse(maxSize, ids + [id])
  {
    if k < |ids| {
      DeleteMembers(ids, k);
    }
  }

  /** `add` appends under the least free id, or changes nothing when there is none. */
  function AddTo<T>(maxSize: nat, list: seq<Entry<T>>, x: T): seq<Entry<T>> {
    var id := LeastFree(InUse(maxSize, Ids(list)));
    if id == maxSize then list else list + [Entry(id, x)]
  }

  predicate Removable<T>(list: seq<Entry<T>>, id: nat) {
    list == [] || id in Ids(list)
  }

  function RemoveFrom<T>(list: seq<Entry<T>>, id: nat): seq<Entry<T>>
    requires Removable(list, id)
  {
    if list == [] then list else Delete(list, IndexOf(Ids(list), id))
  }

  ghost predicate ListFits<T>(maxSize: nat, list: seq<Entry<T>>) {
    Distinct(Ids(list)) && forall id :: id in Ids(list) ==> id < maxSize
  }

  /** `add` fails exactly on a list that already holds `MaxSize` elements. */
  lemma AddFailsExactlyWhenFull<T>(maxSize: nat, list: seq<Entry<T>>, x: T)
    requires ListFits(maxSize, list)
    ensures |list| <= maxSize
    ensures AddTo(maxSize, list, x) == list <==> |list| == maxSize
    ensures ListFits(maxSize, AddTo(maxSize, list, x))
  {
    var status := InUse(maxSize, Ids(list));
    FullExactlyWhenAllLive(status);
    DistinctSize(Ids(list));
    assert Live(status) == Members(Ids(list));
    var id := LeastFree(status);
    if id < maxSize {
      assert Ids(list + [Entry(id, x)]) == Ids(list) + [id];
    }
  }

  lemma RemoveKeepsFit<T>(maxSize: nat, list: seq<Entry<T>>, id: nat)
    requires ListFits(maxSize, list) && Removable(list, id)
    ensures ListFits(maxSize, RemoveFrom(list, id))
    ensures id !in Ids(RemoveFrom(list, id))
    ensures forall i :: i != id ==> (i in Ids(RemoveFrom(list, id)) <==> i in Ids(list))
  {
    if list != [] {
      var k := IndexOf(Ids(list), id);
      assert Ids(Delete(list, k)) == Delete(Ids(list), k);
      DeleteMembers(Ids(list), k);
    }
  }

  lemma DeleteMembers(s: seq<nat>, k: nat)
    requires Distinct(s) && k < |s|
    ensures Distinct(Delete(s, k))
    ensures forall x :: x in Delete(s, k) <==> x in s && x != s[k]
  {
    assert s == s[..k] + [s[k]] + s[k + 1..];
  }

  lemma DeleteShifts(s: seq<nat>, k: nat, x: nat)
    requires Distinct(s) && k < |s| && x in s && x != s[k]
    ensures x in Delete(s, k)
    ensures IndexOf(Delete(s, k), x) == if IndexOf(s, x) > k then IndexOf(s, x) - 1 else IndexOf(s, x)
  {
    DeleteMembers(s, k);
    var i := IndexOf(s, x);
    assert Delete(s, k)[if i > k then i - 1 else i] == x;
  }

  // ---- whole runs ---------------------------------------------------------

  predicate Allowed<T>(list: seq<Entry<T>>, op: ListOp<T>) {
    op.Remove? ==> Removable(list, op.id)
  }

  function Apply<T>(maxSize: nat, list: seq<Entry<T>>, op: ListOp<T>): seq<Entry<T>>
    requires Allowed(list, op)
  {
    match op
    case Add(x) => AddTo(maxSize, list, x)
    case Remove(id) => RemoveFrom(list, id)
  }

  /** The same call on the positions of the calls that added each element. */
  ghost function Track<T>(maxSize: nat, list: seq<Entry<T>>, from: seq<nat>, op: ListOp<T>, now: nat): (f: seq<nat>)
    requires Allowed(list, op) && |from| == |list|
    ensures |f| == |Apply(maxSize, list, op)|
  {
    match op
    case Add(x) => if AddTo(maxSize, list, x) == list then from else from + [now]
    case Remove(id) => if list == [] then from else Delete(from, IndexOf(Ids(list), id))
  }

  ghost predicate RunAllowed<T>(maxSize: nat, ops: seq<ListOp<T>>)
    decreases |ops|, 0
  {
    ops == [] ||
    var last := |ops| - 1;
    RunAllowed(maxSize, ops[..last]) && Allowed(Run(maxSize, ops[..last]), ops[last])
  }

  /** The list after a run of calls on an empty one. */
  ghost function Run<T>(maxSize: nat, ops: seq<ListOp<T>>): seq<Entry<T>>
    requires RunAllowed(maxSize, ops)
    decreases |ops|, 1
  {
    if ops == [] then []
    else Apply(maxSize, Run(maxSize, ops[..|ops| - 1]), ops[|ops| - 1])
  }

  /** For each element left by a run, the position of the call that added it. */
  ghost function Origins<T>(maxSize: nat, ops: seq<ListOp<T>>): (from: seq<nat>)
    requires RunAllowed(maxSize, ops)
    ensures |from| == |Run(maxSize, ops)|
    decreases |ops|
  {
    if ops == [] then []
    else
      var last := |ops| - 1;
      Track(maxSize, Run(maxSize, ops[..last]), Origins(maxSize, ops[..last]), ops[last], last)
  }

  /** `list` holds, in order, the values added by the calls at positions `from`. */
  ghost predicate InOrder<T>(ops: seq<ListOp<T>>, list: seq<Entry<T>>, from: seq<nat>) {
    && |from| == |list|
    && (forall i, j :: 0 <= i < j < |from| ==> from[i] < from[j])
    && (forall i :: 0 <= i < |from| ==> from[i] < |ops| && ops[from[i]] == Add(list[i].value))
  }

  lemma CallKeepsOrder<T>(maxSize: nat, past: seq<ListOp<T>>, op: ListOp<T>, list: seq<Entry<T>>, from: seq<nat>)
    requires InOrder(past, list, from) && ListFits(maxSize, list) && Allowed(list, op)
    ensures ListFits(maxSize, Apply(maxSize, list, op))
    ensures InOrder(past + [op], Apply(maxSize, list, op), Track(maxSize, list, from, op, |past|))
  {
    InOrderLater(past, op, list, from);
    match op {
      case Add(x) =>
        AddFailsExactlyWhenFull(maxSize, list, x);
        AppendKeepsOrder(past, x, list, from, LeastFree(InUse(maxSize, Ids(list))));
      case Remove(id) =>
        RemoveKeepsFit(maxSize, list, id);
        if list != [] {
          DeleteKeepsOrder(past + [op], list, from, IndexOf(Ids(list), id));
        }
    }
  }

  lemma InOrderLater<T>(past: seq<ListOp<T>>, op: ListOp<T>, list: seq<Entry<T>>, from: seq<nat>)
    requires InOrder(past, list, from)
    ensures InOrder(past + [op], list, from)
  {
  }

  lemma AppendKeepsOrder<T>(past: seq<ListOp<T>>, x: T, list: seq<Entry<T>>, from: seq<nat>, id: nat)
    requires InOrder(past, list, from)
    ensures InOrder(past + [Add(x)], list + [Entry(id, x)], from + [|past|])
  {
  }

  /** Any run leaves distinct ids, at most `MaxSize` elements, and the surviving elements in
      the order in which they were added, each with the value it was added with. */
  lemma {:induction false} RunKeepsOrder<T>(maxSize: nat, ops: seq<ListOp<T>>)
    requires RunAllowed(maxSize, ops)
    ensures ListFits(maxSize, Run(maxSize, ops)) && |Run(maxSize, ops)| <= maxSize
    ensures InOrder(ops, Run(maxSize, ops), Origins(maxSize, ops))
    decreases |ops|
  {
    if ops == [] {
    } else {
      var last := |ops| - 1;
      RunKeepsOrder(maxSize, ops[..last]);
      var list, from := Run(maxSize, ops[..last]), Origins(maxSize, ops[..last]);
      CallKeepsOrder(maxSize, ops[..last], ops[last], list, from);
      assert ops[..last] + [ops[last]] == ops;
    }
    DistinctBelow(Ids(Run(maxSize, ops)), maxSize);
  }

  lemma DeleteKeepsOrder<T>(ops: seq<ListOp<T>>, list: seq<Entry<T>>, from: seq<nat>, k: nat)
    requires InOrder(ops, list, from) && k < |list|
    ensures InOrder(ops, Delete(list, k), Delete(from, k))
  {
  }
}

module CircularLists {
  import opened Slots
  import opened Rings
  import opened MemoryBuffers

  class CircularList<T(0, ==)> {
    const buffer: MemoryBuffer<Node<T>>
    var first: nat
    var last: nat
    var count: nat

    /** The live slots in ring order, from `first` to `last`. */
    ghost var ids: seq<nat>

    ghost predicate Valid()
      reads this, buffer, buffer.data, buffer.status
    {
      && buffer.Valid()
      && buffer.status[..] == InUse(buffer.maxSize, ids)
      && Linked(buffer.data[..], ids)
      && count == |ids|
      // With no element left both ends are stale.
      && (ids != [] ==> first == ids[0] && last == ids[|ids| - 1])
    }

    /** The stored values in ring order. */
    ghost function Values(): (v: seq<T>)
      reads this, buffer, buffer.data
      requires Linked(buffer.data[..], ids)
      ensures |v| == |ids|
    {
      Contents(buffer.data[..], ids)
    }

    ghost function Entries(): seq<Entry<T>>
      reads this, buffer, buffer.data
      requires Linked(buffer.data[..], ids)
    {
      Zip(ids, Values())
    }

    constructor (maxSize: nat)
      ensures Valid() && buffer.maxSize == maxSize
      ensures fresh(buffer) && fresh(buffer.data) && fresh(buffer.status)
      ensures Entries() == []
    {
      buffer := new MemoryBuffer<Node<T>>(maxSize);
      first, last, count := 0, 0, 0;
      ids := [];
    }

    method Add(value: T) returns (id: Option<nat>)
      requires Valid()
      modifies this, buffer.data, buffer.status
      ensures Valid()
      ensures Entries() == AddTo(buffer.maxSize, old(Entries()), value)
      ensures id == None <==> old(count) == buffer.maxSize
      ensures old(count) <= buffer.maxSize
      ensures id.Some? ==> id.value !in old(ids) && ids == old(ids) + [id.value]
      ensures id.Some? ==> Values() == old(Values()) + [value]
      ensures id == None ==> ids == old(ids) && Values() == old(Values())
    {
      hide Linked, Contents, Distinct, InUse, Zip, AddTo;
      AdditionEffect(buffer.maxSize, buffer.data[..], ids, value);
      id := buffer.Allocate();
      if id.Some? {
        LinkLast(id.value, value);
        count := count + 1;
        ids := ids + [id.value];
      }
    }

    /** What adding does to the flags and to the list a caller sees. */
    static lemma AdditionEffect(maxSize: nat, nodes: seq<Node<T>>, ids: seq<nat>, x: T)
      requires Linked(nodes, ids) && |nodes| == maxSize
      ensures var status := InUse(maxSize, ids);
              var id := LeastFree(status);
              var list, values := Zip(ids, Contents(nodes, ids)), Contents(nodes, ids);
              && |ids| <= maxSize && (id == maxSize <==> |ids| == maxSize)
              && (forall i: nat :: i in ids ==> i < maxSize && status[i])
              && if id == maxSize then AddTo(maxSize, list, x) == list
                 else id !in ids && status[id := true] == InUse(maxSize, ids + [id])
                      && AddTo(maxSize, list, x) == Zip(ids + [id], values + [x])
    {
      var list := Zip(ids, Contents(nodes, ids));
      AddFailsExactlyWhenFull(maxSize, list, x);
      var id := LeastFree(InUse(maxSize, ids));
      InUseChanges(maxSize, ids, |ids|, id);
      if id < maxSize {
        ZipAppend(ids, Contents(nodes, ids), id, x);
      }
    }

    /** The three cases of `add`, by the number of nodes already linked. */
    method LinkLast(node: nat, value: T)
      requires buffer.Valid() && node < buffer.maxSize && buffer.status[node]
      requires forall i: nat :: i in ids ==> i < buffer.maxSize && buffer.status[i]
      requires Linked(buffer.data[..], ids) && count == |ids| && node !in ids
      requires ids != [] ==> first == ids[0] && last == ids[|ids| - 1]
      modifies this`first, this`last, buffer.data
      ensures Linked(buffer.data[..], ids + [node])
      ensures Contents(buffer.data[..], ids + [node]) == Contents(old(buffer.data[..]), ids) + [value]
      ensures first == (ids + [node])[0] && last == node
    {
      ghost var nodes := buffer.data[..];
      match count {
        case 0 =>
          first := node;
          buffer.Put(node, Node(node, node, value));
        case 1 =>
          var head := buffer.At(first);
          buffer.Put(first, head.(next := node, prev := node));
          buffer.Put(node, Node(first, first, value));
        case _ =>
          var tail := buffer.At(last);
          buffer.Put(last, tail.(next := node));
          var head := buffer.At(first);
          buffer.Put(first, head.(prev := node));
          buffer.Put(node, Node(first, last, value));
      }
      if ids != [] {
        LinkAtEnd(nodes, ids, node, value, buffer.data[..]);
      }
      last := node;
    }

    method Remove(id: nat)
      requires Valid()
      requires count > 0 ==> id in ids
      modifies this, buffer.data, buffer.status
      ensures Valid()
      ensures Entries() == RemoveFrom(old(Entries()), id)
      ensures old(count) > 0 ==>
                var k := IndexOf(old(ids), id);
                ids == Delete(old(ids), k) && Values() == Delete(old(Values()), k)
    {
      hide Linked, Contents, Distinct, Delete, InUse, Zip, RemoveFrom;
      if count > 0 {
        ghost var k := IndexOf(ids, id);
        RemovalEffect(buffer.maxSize, buffer.data[..], ids, id);
        UnlinkOrEmpty(id, k);
        buffer.Free(id);
        count := count - 1;
        ids := Delete(ids, k);
      } else {
        RemovalFromEmpty(buffer.data[..], ids, id);
      }
    }

    /** What removing a live id does to the flags and to the list a caller sees. */
    static lemma RemovalEffect(maxSize: nat, nodes: seq<Node<T>>, ids: seq<nat>, id: nat)
      requires Linked(nodes, ids) && |nodes| == maxSize && id in ids
      ensures var k := IndexOf(ids, id);
              && id < maxSize && |Contents(nodes, ids)| == |ids|
              && InUse(maxSize, ids)[id := false] == InUse(maxSize, Delete(ids, k))
              && Zip(Delete(ids, k), Delete(Contents(nodes, ids), k)) == RemoveFrom(Zip(ids, Contents(nodes, ids)), id)
    {
      var k := IndexOf(ids, id);
      InUseChanges(maxSize, ids, k, maxSize);
      ZipDelete(ids, Contents(nodes, ids), k);
    }

    static lemma RemovalFromEmpty(nodes: seq<Node<T>>, ids: seq<nat>, id: nat)
      requires Linked(nodes, ids) && |ids| == 0
      ensures RemoveFrom(Zip(ids, Contents(nodes, ids)), id) == Zip(ids, Contents(nodes, ids))
    {
    }

    /** With a single node nothing is unlinked and both ends become stale. */
    method UnlinkOrEmpty(id: nat, ghost k: nat)
      requires Valid() && k < |ids| && id == ids[k]
      modifies this`first, this`last, buffer.data
      ensures Linked(buffer.data[..], Delete(ids, k))
      ensures Contents(buffer.data[..], Delete(ids, k)) == Delete(old(Contents(buffer.data[..], ids)), k)
      ensures count > 1 ==> first == Delete(ids, k)[0] && last == Delete(ids, k)[|ids| - 2]
    {
      if count > 1 {
        UnlinkAt(id, k);
      } else {
        LastNodeGoes(buffer.data[..], ids);
      }
    }

    /** Takes one of several nodes out of the ring, moving an end that it was. */
    method UnlinkAt(id: nat, ghost k: nat)
      requires buffer.Valid() && Linked(buffer.data[..], ids)
      requires forall i: nat :: i in ids ==> i < buffer.maxSize && buffer.status[i]
      requires |ids| > 1 && first == ids[0] && last == ids[|ids| - 1]
      requires k < |ids| && id == ids[k]
      modifies this`first, this`last, buffer.data
      ensures Linked(buffer.data[..], Delete(ids, k))
      ensures Contents(buffer.data[..], Delete(ids, k)) == Delete(old(Contents(buffer.data[..], ids)), k)
      ensures first == Delete(ids, k)[0] && last == Delete(ids, k)[|ids| - 2]
    {
      hide Linked, LinkedAt, Contents, Distinct, Delete, Bridge, Before, After;
      UnlinkEffect(buffer.data[..], ids, k);
      var node := buffer.At(id);
      var prev, next := node.prev, node.next;
      Bypass(prev, next);
      if id == first {
        first := next;
      } else if id == last {
        last := prev;
      }
    }

    static lemma UnlinkEffect(nodes: seq<Node<T>>, ids: seq<nat>, k: nat)
      requires Linked(nodes, ids) && |ids| > 1 && k < |ids|
      ensures var node := nodes[ids[k]];
              && ids[k] in ids && node.prev in ids && node.next in ids && node.prev < |nodes| && node.next < |nodes|
              && Linked(Bridge(nodes, node.prev, node.next), Delete(ids, k))
              && Contents(Bridge(nodes, node.prev, node.next), Delete(ids, k)) == Delete(Contents(nodes, ids), k)
              && Delete(ids, k)[0] == (if ids[k] == ids[0] then node.next else ids[0])
              && Delete(ids, k)[|ids| - 2] == (if ids[k] == ids[|ids| - 1] then node.prev else ids[|ids| - 1])
              && ids[0] != ids[|ids| - 1]
    {
      assert LinkedAt(nodes, ids, k);
      Unlink(nodes, ids, k);
      EndsAfterUnlink(ids, k);
    }

    method Bypass(prev: nat, next: nat)
      requires buffer.Valid() && prev < buffer.maxSize && next < buffer.maxSize
      requires buffer.status[prev] && buffer.status[next]
      modifies buffer.data
      ensures buffer.data[..] == Bridge(old(buffer.data[..]), prev, next)
    {
      var before := buffer.At(prev);
      buffer.Put(prev, before.(next := next));
      var after := buffer.At(next);
      buffer.Put(next, after.(prev := prev));
    }

    method Find(key: T) returns (id: Option<nat>)
      requires Valid()
      ensures var at := IndexOf(Values(), key);
              id == if at < count then Some(ids[at]) else None
    {
      ghost var values := Values();
      var node := first;
      for i := 0 to count
        invariant i < count ==> node == ids[i]
        invariant key !in values[..i]
      {
        assert LinkedAt(buffer.data[..], ids, i);
        var item := buffer.At(node);
        if key == item.data {
          assert IndexOf(values, key) == i;
          return Some(node);
        }
        node := item.next;
      }
      return None;
    }

    method At(id: nat) returns (value: T)
      requires Valid() && id in ids
      ensures value == Values()[IndexOf(ids, id)]
    {
      var node := buffer.At(id);
      value := node.data;
    }

    method FirstIndex() returns (id: nat)
      requires Valid()
      ensures ids != [] ==> id == ids[0]
    {
      id := first;
    }

    method NextIndex(id: nat) returns (next: nat)
      requires Valid() && id in ids
      ensures next == ids[After(IndexOf(ids, id), count)]
    {
      assert LinkedAt(buffer.data[..], ids, IndexOf(ids, id));
      var node := buffer.At(id);
      next := node.next;
    }
  }
}
