/** The fixed-size slot arena under every kernel object pool
    (source/common/memory_buffer.hpp): a flag per slot, lowest free slot first. */
module Slots {

  datatype Option<+T> = None | Some(value: T)

  /** Index of the first slot that is not in use; the length when there is none. */
  function LeastFree(status: seq<bool>): (r: nat)
    ensures r <= |status|
    ensures forall j :: 0 <= j < r ==> status[j]
    ensures r < |status| ==> !status[r]
  {
    if status == [] then 0
    else if !status[0] then 0
    else 1 + LeastFree(status[1..])
  }

  /** The slots in use. */
  ghost function Live(status: seq<bool>): (s: set<nat>)
    ensures forall i :: i in s <==> 0 <= i < |status| && status[i]
  {
    set i: nat | i < |status| && status[i]
  }

  ghost function Below(n: nat): (s: set<nat>)
    ensures forall i: nat :: i in s <==> i < n
    ensures |s| == n
  {
    if n == 0 then {} else Below(n - 1) + {n - 1}
  }

  lemma SubsetSize<T>(a: set<T>, b: set<T>)
    requires a <= b
    ensures |a| <= |b|
    ensures |a| == |b| ==> a == b
  {
    assert b == a + (b - a);
  }

  /** Pigeonhole: the search finds nothing exactly when as many slots are in use as exist. */
  lemma FullExactlyWhenAllLive(status: seq<bool>)
    ensures |Live(status)| <= |status|
    ensures LeastFree(status) == |status| <==> |Live(status)| == |status|
  {
    SubsetSize(Live(status), Below(|status|));
    if LeastFree(status) == |status| {
      assert Live(status) == Below(|status|);
    } else {
      assert LeastFree(status) in Below(|status|) - Live(status);
    }
  }

  /** Distinct slot numbers below `n` are at most `n` many, and `n` of them are all of them. */
  lemma DistinctBelow(ids: seq<nat>, n: nat)
    requires Distinct(ids)
    requires forall i :: i in ids ==> i < n
    ensures |ids| <= n
    ensures |ids| == n ==> forall j :: 0 <= j < n ==> j in ids
  {
    var members := Members(ids);
    DistinctSize(ids);
    SubsetSize(members, Below(n));
  }

  ghost predicate Distinct<T>(s: seq<T>) {
    forall i, j :: 0 <= i < j < |s| ==> s[i] != s[j]
  }

  ghost function Members(s: seq<nat>): (m: set<nat>)
    ensures forall x :: x in m <==> x in s
  {
    set x | x in s
  }

  lemma {:induction false} DistinctSize(s: seq<nat>)
    requires Distinct(s)
    ensures |Members(s)| == |s|
  {
    if s == [] {
    } else {
      var front := s[..|s| - 1];
      DistinctSize(front);
      assert s == front + [s[|s| - 1]];
      assert Members(s) == Members(front) + {s[|s| - 1]};
    }
  }

  // ---- whole runs ---------------------------------------------------------

  /** One call on an arena. */
  datatype Op = Allocate | Free(id: nat) | FreeAll

  /** What a call returns: the slot an `allocate` handed out, if any. */
  datatype Outcome = Outcome(status: seq<bool>, granted: Option<nat>)

  predicate Permitted(status: seq<bool>, op: Op) {
    op.Free? ==> op.id < |status|
  }

  function Step(status: seq<bool>, op: Op): (o: Outcome)
    requires Permitted(status, op)
    ensures |o.status| == |status|
  {
    match op
    case Allocate =>
      var i := LeastFree(status);
      if i < |status| then Outcome(status[i := true], Some(i)) else Outcome(status, None)
    case Free(id) => Outcome(status[id := false], None)
    case FreeAll => Outcome(seq(|status|, i => false), None)
  }

  /** An allocation takes the least slot that is free, and fails only on a full arena. */
  lemma AllocateTakesLeast(status: seq<bool>)
    ensures var o := Step(status, Allocate);
            match o.granted
            case Some(i) =>
              && i < |status| && i !in Live(status)
              && (forall j :: 0 <= j < i ==> j in Live(status))
              && Live(o.status) == Live(status) + {i}
              && |Live(o.status)| == |Live(status)| + 1
            case None => |Live(status)| == |status| && o.status == status
  {
    FullExactlyWhenAllLive(status);
    var o := Step(status, Allocate);
    if o.granted.Some? {
      assert Live(o.status) == Live(status) + {o.granted.value};
    }
  }

  /** A run of calls, with the net number of slots it took. */
  ghost predicate RunPermitted(status: seq<bool>, ops: seq<Op>)
    decreases |ops|
  {
    ops == [] ||
    (Permitted(status, ops[0]) && RunPermitted(Step(status, ops[0]).status, ops[1..]))
  }

  ghost function RunStatus(status: seq<bool>, ops: seq<Op>): (r: seq<bool>)
    requires RunPermitted(status, ops)
    ensures |r| == |status|
    decreases |ops|
  {
    if ops == [] then status else RunStatus(Step(status, ops[0]).status, ops[1..])
  }

  /** Grants of a run minus the slots it gave back that were in use. */
  ghost function NetGrants(status: seq<bool>, ops: seq<Op>): int
    requires RunPermitted(status, ops)
    decreases |ops|
  {
    if ops == [] then 0
    else
      var o := Step(status, ops[0]);
      var here := match ops[0]
                  case Allocate => if o.granted.Some? then 1 else 0
                  case Free(id) => if status[id] then -1 else 0
                  case FreeAll => -|Live(status)|;
      here + NetGrants(o.status, ops[1..])
  }

  /** No slot is lost or duplicated by any run: the slots in use at the end are those at the
      start plus the net number granted, never more than exist. */
  lemma {:induction false} RunConservesSlots(status: seq<bool>, ops: seq<Op>)
    requires RunPermitted(status, ops)
    ensures |Live(RunStatus(status, ops))| == |Live(status)| + NetGrants(status, ops)
    ensures |Live(RunStatus(status, ops))| <= |status|
    decreases |ops|
  {
    FullExactlyWhenAllLive(status);
    if ops == [] {
    } else {
      var next := Step(status, ops[0]).status;
      match ops[0] {
        case Allocate => AllocateTakesLeast(status);
        case Free(id) =>
          assert Live(next) == Live(status) - {id};
        case FreeAll =>
          assert Live(next) == {};
      }
      RunConservesSlots(next, ops[1..]);
    }
  }
}

module MemoryBuffers {
  import opened Slots

  class MemoryBuffer<T(0)> {
    const maxSize: nat
    const data: array<T>
    const status: array<bool>

    ghost predicate Valid()
      reads this
    {
      && data.Length == maxSize
      && status.Length == maxSize
      && data as object != status
    }

    /** The stored value of every slot in use. */
    ghost function View(): (v: seq<Option<T>>)
      reads this, data, status
      requires Valid()
      ensures |v| == maxSize
      ensures forall i :: 0 <= i < maxSize ==> v[i] == if status[i] then Some(data[i]) else None
    {
      seq(maxSize, i requires 0 <= i < maxSize && Valid() reads this, data, status =>
        if status[i] then Some(data[i]) else None)
    }

    /** All slots start free; the stored values are left uninitialised. */
    constructor (maxSize: nat)
      ensures Valid() && this.maxSize == maxSize
      ensures fresh(data) && fresh(status)
      ensures Live(status[..]) == {}
    {
      this.maxSize := maxSize;
      data := new T[maxSize];
      status := new bool[maxSize](_ => false);
      new;
      assert forall i :: 0 <= i < maxSize ==> !status[..][i];
    }

    method Allocate() returns (id: Option<nat>)
      requires Valid()
      modifies status
      ensures Outcome(status[..], id) == Step(old(status[..]), Op.Allocate)
      ensures id == None <==> |Live(old(status[..]))| == maxSize
    {
      FullExactlyWhenAllLive(status[..]);
      for i := 0 to maxSize
        invariant status[..] == old(status[..])
        invariant forall j :: 0 <= j < i ==> status[j]
      {
        if !status[i] {
          assert LeastFree(status[..]) == i;
          status[i] := true;
          return Some(i);
        }
      }
      return None;
    }

    method Free(id: nat)
      requires Valid() && id < maxSize
      modifies status
      ensures status[..] == Step(old(status[..]), Op.Free(id)).status
    {
      status[id] := false;
    }

    method FreeAll()
      requires Valid()
      modifies status
      ensures status[..] == Step(old(status[..]), Op.FreeAll).status
    {
      for i := 0 to maxSize
        invariant forall j :: 0 <= j < i ==> !status[j]
      {
        status[i] := false;
      }
    }

    /** Reading through the reference that `at` returns. */
    method At(id: nat) returns (item: T)
      requires Valid() && id < maxSize && status[id]
      ensures item == data[id]
    {
      item := data[id];
    }

    /** Writing through the reference that `at` returns. */
    method Put(id: nat, item: T)
      requires Valid() && id < maxSize && status[id]
      modifies data
      ensures data[..] == old(data[..])[id := item]
    {
      data[id] := item;
    }

    method IsAllocated(id: nat) returns (used: bool)
      requires Valid() && id < maxSize
      ensures used <==> id in Live(status[..])
    {
      used := status[id];
    }
  }
}
