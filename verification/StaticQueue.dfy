/** Byte loops over one flat address space (source/common/memory.hpp). */
module Memory {

  newtype Byte = b: int | 0 <= b < 256

  /** `mem` with `bytes` written from address `at` on. */
  function Splice(mem: seq<Byte>, at: nat, bytes: seq<Byte>): (r: seq<Byte>)
    requires at + |bytes| <= |mem|
    ensures |r| == |mem|
    ensures forall a :: 0 <= a < |mem| ==> r[a] == if at <= a < at + |bytes| then bytes[a - at] else mem[a]
  {
    mem[..at] + bytes + mem[at + |bytes|..]
  }

  /** A write leaves every stretch beside it as it was, and the stretch itself as written. */
  lemma SpliceElsewhere(mem: seq<Byte>, at: nat, bytes: seq<Byte>, lo: nat, hi: nat)
    requires at + |bytes| <= |mem| && lo <= hi <= |mem|
    requires hi <= at || at + |bytes| <= lo
    ensures Splice(mem, at, bytes)[lo..hi] == mem[lo..hi]
  {
  }

  lemma SpliceHere(mem: seq<Byte>, at: nat, bytes: seq<Byte>)
    requires at + |bytes| <= |mem|
    ensures Splice(mem, at, bytes)[at..at + |bytes|] == bytes
  {
  }

  lemma Stretch(mem: seq<Byte>, after: seq<Byte>, lo: nat, hi: nat, a: nat, b: nat)
    requires lo <= a <= b <= hi <= |mem| == |after| && mem[lo..hi] == after[lo..hi]
    ensures mem[a..b] == after[a..b]
  {
    forall i | a <= i < b ensures mem[i] == after[i] {
      assert mem[lo..hi][i - lo] == after[lo..hi][i - lo];
    }
  }

  /** An ascending byte loop, right whenever it does not overwrite what it has yet to read. */
  method Copy(mem: array<Byte>, destination: nat, source: nat, count: nat)
    requires count > 0
    requires destination + count <= mem.Length && source + count <= mem.Length
    requires destination <= source || source + count <= destination
    modifies mem
    ensures mem[..] == Splice(old(mem[..]), destination, old(mem[source..source + count]))
  {
    for i := 0 to count
      invariant forall k :: 0 <= k < mem.Length ==>
                  mem[k] == old(if destination <= k < destination + i then mem[source + (k - destination)] else mem[k])
    {
      mem[destination + i] := mem[source + i];
    }
  }

  method Compare(mem: array<Byte>, left: nat, right: nat, count: nat) returns (same: bool)
    requires count > 0
    requires left + count <= mem.Length && right + count <= mem.Length
    ensures same <==> mem[left..left + count] == mem[right..right + count]
  {
    for i := 0 to count
      invariant mem[left..left + i] == mem[right..right + i]
    {
      if mem[left + i] != mem[right + i] {
        assert mem[left..left + count][i] != mem[right..right + count][i];
        return false;
      }
    }
    return true;
  }
}

/** A queue's record and the byte blocks it denotes (source/queue/queue.hpp). */
module ByteRings {
  import opened Memory

  /** Addresses and sizes are 32-bit. */
  const ADDRESS_SPACE: nat := 0x1_0000_0000

  function Wrap32(x: nat): (r: nat)
    ensures r < ADDRESS_SPACE && (x < ADDRESS_SPACE ==> r == x)
  {
    x % ADDRESS_SPACE
  }

  datatype Queue = Queue(
    size: nat,
    head: nat,
    tail: nat,
    capacity: nat,
    elementSize: nat,
    data: nat,
    name: nat)

  function Around(k: nat, n: nat): nat
    requires k < 2 * n
  {
    if k < n then k else k - n
  }

  /** First address past the queue's buffer. */
  function End(q: Queue): nat {
    q.data + q.elementSize * q.capacity
  }

  /** Address of block `k` of the buffer. */
  function BlockAt(q: Queue, k: nat): nat {
    q.data + q.elementSize * k
  }

  ghost predicate QueueOk(memSize: nat, q: Queue) {
    && 0 < q.capacity && 0 < q.elementSize
    && 0 < q.data && End(q) <= memSize  // a null buffer is refused
    && q.size <= q.capacity && q.tail < q.capacity
    && q.head == if q.size == 0 then q.tail else Around(q.tail + q.size - 1, q.capacity)
  }

  lemma BlocksInside(q: Queue, k: nat)
    requires k < q.capacity
    ensures q.data <= BlockAt(q, k) && BlockAt(q, k) + q.elementSize <= End(q)
  {
    assert q.elementSize * (k + 1) <= q.elementSize * q.capacity;
  }

  lemma BlocksDisjoint(q: Queue, i: nat, j: nat)
    requires i < j
    ensures BlockAt(q, i) + q.elementSize <= BlockAt(q, j)
  {
    assert q.elementSize * (i + 1) <= q.elementSize * j;
  }

  ghost function Block(mem: seq<Byte>, q: Queue, k: nat): (b: seq<Byte>)
    requires k < q.capacity && End(q) <= |mem|
    ensures |b| == q.elementSize
  {
    BlocksInside(q, k);
    mem[BlockAt(q, k)..BlockAt(q, k) + q.elementSize]
  }

  /** The queued elements, oldest first, as byte strings. */
  ghost function Fifo(mem: seq<Byte>, q: Queue): (c: seq<seq<Byte>>)
    requires QueueOk(|mem|, q)
    ensures |c| == q.size
    ensures forall i :: 0 <= i < q.size ==> c[i] == Block(mem, q, Around(q.tail + i, q.capacity))
  {
    seq(q.size, i requires 0 <= i < q.size => Block(mem, q, Around(q.tail + i, q.capacity)))
  }

  /** Address of the `i`-th oldest element. */
  function ElementAt(q: Queue, i: nat): nat
    requires q.tail < q.capacity && i < q.capacity
  {
    BlockAt(q, Around(q.tail + i, q.capacity))
  }

  /** Live elements sit in pairwise disjoint blocks inside the buffer. */
  lemma LiveBlocksDisjoint(memSize: nat, q: Queue, i: nat, j: nat)
    requires QueueOk(memSize, q) && i < q.size && j < q.size && i != j
    ensures q.data <= ElementAt(q, i) && ElementAt(q, i) + q.elementSize <= End(q)
    ensures ElementAt(q, i) + q.elementSize <= ElementAt(q, j) || ElementAt(q, j) + q.elementSize <= ElementAt(q, i)
  {
    var m, n := Around(q.tail + i, q.capacity), Around(q.tail + j, q.capacity);
    BlocksInside(q, m);
    BlocksDisjoint(q, if m < n then m else n, if m < n then n else m);
  }

  /** No offset or counter that `send` and `receive` compute leaves 32 bits. */
  lemma IndicesFit(memSize: nat, q: Queue)
    requires QueueOk(memSize, q) && memSize <= ADDRESS_SPACE
    ensures Wrap32(q.elementSize * q.head) == q.elementSize * q.head
    ensures Wrap32(q.elementSize * q.tail) == q.elementSize * q.tail
    ensures Wrap32(q.head + 1) == q.head + 1 && Wrap32(q.tail + 1) == q.tail + 1
    ensures q.size < q.capacity ==> Wrap32(q.size + 1) == q.size + 1
  {
    BlocksInside(q, q.head);
    BlocksInside(q, q.tail);
    CapacityFits(q);
  }

  /** The head is always `size - 1` places after the tail around the buffer. */
  lemma HeadFollowsTail(memSize: nat, q: Queue)
    requires QueueOk(memSize, q)
    ensures q.head < q.capacity
    ensures if q.size > 0 then q.head == (q.tail + q.size - 1) % q.capacity else q.head == q.tail
  {
    if q.size > 0 {
      AroundIsRemainder(q.tail + q.size - 1, q.capacity);
    }
  }

  lemma AroundIsRemainder(k: nat, n: nat)
    requires k < 2 * n
    ensures Around(k, n) == k % n
  {
    if k >= n {
      assert k / n == 1;
    }
  }

  lemma CapacityFits(q: Queue)
    requires 0 < q.elementSize
    ensures q.data + q.capacity <= End(q)
  {
    assert 1 * q.capacity <= q.elementSize * q.capacity;
  }

  // ---- one call -----------------------------------------------------------

  /** The index after `k`, as the code steps it. */
  function Bump(k: nat, q: Queue): nat {
    if Wrap32(k + 1) >= q.capacity then 0 else Wrap32(k + 1)
  }

  /** `send` moves the head only when something is already queued. */
  function Pushed(q: Queue): Queue {
    q.(head := if q.size == 0 then q.head else Bump(q.head, q), size := q.size + 1)
  }

  /** `receive` moves the tail only when something stays queued. */
  function Popped(q: Queue): Queue {
    if q.size == 0 then q
    else q.(tail := if q.size > 1 then Bump(q.tail, q) else q.tail, size := q.size - 1)
  }

  lemma BumpGoesAround(memSize: nat, q: Queue, k: nat)
    requires QueueOk(memSize, q) && memSize <= ADDRESS_SPACE && k < q.capacity
    ensures Bump(k, q) == Around(k + 1, q.capacity)
  {
    CapacityFits(q);
  }

  /** Writing an element into the block at the new head appends it and nothing else. */
  lemma PushAppends(mem: seq<Byte>, q: Queue, element: seq<Byte>)
    requires QueueOk(|mem|, q) && |mem| <= ADDRESS_SPACE && q.size < q.capacity && |element| == q.elementSize
    ensures var p := Pushed(q);
            && QueueOk(|mem|, p)
            && q.data <= BlockAt(p, p.head) && BlockAt(p, p.head) + q.elementSize <= End(q)
            && Fifo(Splice(mem, BlockAt(p, p.head), element), p) == Fifo(mem, q) + [element]
  {
    BumpGoesAround(|mem|, q, q.head);
    var p := Pushed(q);
    BlocksInside(q, p.head);
    forall i | 0 <= i < q.size
      ensures Fifo(Splice(mem, BlockAt(p, p.head), element), p)[i] == Fifo(mem, q)[i]
    {
      OtherBlockKept(mem, q, p.head, Around(q.tail + i, q.capacity), element);
    }
    SpliceHere(mem, BlockAt(p, p.head), element);
  }

  lemma OtherBlockKept(mem: seq<Byte>, q: Queue, written: nat, k: nat, element: seq<Byte>)
    requires 0 < q.capacity && End(q) <= |mem| && |element| == q.elementSize
    requires written < q.capacity && k < q.capacity && k != written
    ensures BlockAt(q, written) + q.elementSize <= |mem|
    ensures Block(Splice(mem, BlockAt(q, written), element), q, k) == Block(mem, q, k)
  {
    BlocksInside(q, written);
    BlocksInside(q, k);
    BlocksDisjoint(q, if k < written then k else written, if k < written then written else k);
    SpliceElsewhere(mem, BlockAt(q, written), element, BlockAt(q, k), BlockAt(q, k) + q.elementSize);
  }

  /** Dropping the block at the tail removes the oldest element and nothing else. */
  lemma PopDropsOldest(mem: seq<Byte>, q: Queue)
    requires QueueOk(|mem|, q) && |mem| <= ADDRESS_SPACE && q.size > 0
    ensures QueueOk(|mem|, Popped(q))
    ensures Fifo(mem, q) == [Block(mem, q, q.tail)] + Fifo(mem, Popped(q))
  {
    BumpGoesAround(|mem|, q, q.tail);
    var p := Popped(q);
    forall i | 0 <= i < p.size
      ensures Fifo(mem, p)[i] == Fifo(mem, q)[i + 1]
    {
      assert Around(p.tail + i, p.capacity) == Around(q.tail + i + 1, q.capacity);
    }
  }

  /** Bytes outside a queue's buffer do not matter to it. */
  lemma FifoDependsOnOwnBuffer(mem: seq<Byte>, after: seq<Byte>, q: Queue)
    requires QueueOk(|mem|, q) && |after| == |mem|
    requires mem[q.data..End(q)] == after[q.data..End(q)]
    ensures Fifo(mem, q) == Fifo(after, q)
  {
    forall i | 0 <= i < q.size
      ensures Fifo(mem, q)[i] == Fifo(after, q)[i]
    {
      var k := Around(q.tail + i, q.capacity);
      BlocksInside(q, k);
      Stretch(mem, after, q.data, End(q), BlockAt(q, k), BlockAt(q, k) + q.elementSize);
    }
  }
}

/** What a queue is for: a bounded first-in first-out store. */
module BoundedFifo {
  import opened Slots

  datatype Call<X> = Send(x: X) | Receive

  /** A run's effect: what is left, what `send` took, what `receive` gave. */
  datatype History<X> = History(contents: seq<X>, accepted: seq<X>, received: seq<X>)

  function Do<X>(bound: nat, h: History<X>, call: Call<X>): History<X> {
    match call
    case Send(x) =>
      if |h.contents| >= bound then h
      else h.(contents := h.contents + [x], accepted := h.accepted + [x])
    case Receive =>
      if h.contents == [] then h
      else h.(contents := h.contents[1..], received := h.received + [h.contents[0]])
  }

  ghost function Run<X>(bound: nat, calls: seq<Call<X>>): History<X>
    decreases |calls|
  {
    if calls == [] then History([], [], [])
    else Do(bound, Run(bound, calls[..|calls| - 1]), calls[|calls| - 1])
  }

  /** Over any run the received elements are a prefix of the accepted ones, in order, and the
      rest are exactly what the queue still holds, never more than its bound. */
  lemma {:induction false} RunIsFirstInFirstOut<X>(bound: nat, calls: seq<Call<X>>)
    ensures var h := Run(bound, calls);
            && h.accepted == h.received + h.contents
            && h.received <= h.accepted
            && |h.contents| <= bound
    decreases |calls|
  {
    if calls == [] {
    } else {
      RunIsFirstInFirstOut(bound, calls[..|calls| - 1]);
      var h := Run(bound, calls[..|calls| - 1]);
      if calls[|calls| - 1].Receive? && h.contents != [] {
        assert h.contents == [h.contents[0]] + h.contents[1..];
      }
    }
  }
}

/** The byte ring does what the bounded store says, over whole runs. */
module QueueRefinement {
  import opened Memory
  import opened ByteRings
  import opened BoundedFifo

  /** The buffer and record, with what `send` took and `receive` gave so far. */
  datatype Machine = Machine(mem: seq<Byte>, q: Queue, accepted: seq<seq<Byte>>, received: seq<seq<Byte>>)

  ghost predicate Fits(elementSize: nat, call: Call<seq<Byte>>) {
    call.Send? ==> |call.x| == elementSize
  }

  ghost predicate Agree(m: Machine, h: History<seq<Byte>>) {
    && QueueOk(|m.mem|, m.q)
    && Fifo(m.mem, m.q) == h.contents && m.accepted == h.accepted && m.received == h.received
  }

  ghost function DoBytes(m: Machine, call: Call<seq<Byte>>): (r: Machine)
    requires QueueOk(|m.mem|, m.q) && |m.mem| <= ADDRESS_SPACE && Fits(m.q.elementSize, call)
    ensures QueueOk(|r.mem|, r.q) && |r.mem| == |m.mem|
    ensures r.q.elementSize == m.q.elementSize && r.q.capacity == m.q.capacity
  {
    match call
    case Send(x) =>
      if m.q.size >= m.q.capacity then m
      else
        PushAppends(m.mem, m.q, x);
        var p := Pushed(m.q);
        Machine(Splice(m.mem, BlockAt(p, p.head), x), p, m.accepted + [x], m.received)
    case Receive =>
      if m.q.size == 0 then m
      else
        PopDropsOldest(m.mem, m.q);
        m.(q := Popped(m.q), received := m.received + [Block(m.mem, m.q, m.q.tail)])
  }

  ghost function RunBytes(start: Machine, calls: seq<Call<seq<Byte>>>): (r: Machine)
    requires QueueOk(|start.mem|, start.q) && |start.mem| <= ADDRESS_SPACE
    requires forall i :: 0 <= i < |calls| ==> Fits(start.q.elementSize, calls[i])
    ensures QueueOk(|r.mem|, r.q) && |r.mem| == |start.mem|
    ensures r.q.elementSize == start.q.elementSize && r.q.capacity == start.q.capacity
    decreases |calls|
  {
    if calls == [] then start
    else DoBytes(RunBytes(start, calls[..|calls| - 1]), calls[|calls| - 1])
  }

  lemma CallAgrees(m: Machine, h: History<seq<Byte>>, call: Call<seq<Byte>>)
    requires Agree(m, h) && |m.mem| <= ADDRESS_SPACE && Fits(m.q.elementSize, call)
    ensures Agree(DoBytes(m, call), Do(m.q.capacity, h, call))
  {
    match call {
      case Send(x) =>
        if m.q.size < m.q.capacity {
          PushAppends(m.mem, m.q, x);
        }
      case Receive =>
        if m.q.size > 0 {
          PopDropsOldest(m.mem, m.q);
        }
    }
  }

  /** For every capacity, element size and run from a newly created queue: the bytes in the
      buffer, the accepted sends and the received elements are those of the bounded store, so
      what was received is byte for byte a prefix of what was accepted. */
  lemma {:induction false} BytesRefineFifo(mem: seq<Byte>, q: Queue, calls: seq<Call<seq<Byte>>>)
    requires QueueOk(|mem|, q) && q.size == 0 && |mem| <= ADDRESS_SPACE
    requires forall i :: 0 <= i < |calls| ==> Fits(q.elementSize, calls[i])
    ensures var m := RunBytes(Machine(mem, q, [], []), calls);
            && Agree(m, Run(q.capacity, calls))
            && m.received <= m.accepted
            && m.accepted == m.received + Fifo(m.mem, m.q)
    decreases |calls|
  {
    RunIsFirstInFirstOut(q.capacity, calls);
    if calls == [] {
    } else {
      var front := calls[..|calls| - 1];
      BytesRefineFifo(mem, q, front);
      CallAgrees(RunBytes(Machine(mem, q, [], []), front), Run(q.capacity, front), calls[|calls| - 1]);
    }
  }
}

module StaticQueues {
  import opened Slots
  import opened Memory
  import opened ByteRings
  import opened MemoryBuffers

  ghost predicate Apart(p: Queue, q: Queue) {
    End(p) <= q.data || End(q) <= p.data
  }

  ghost predicate PoolOk(memSize: nat, status: seq<bool>, records: seq<Queue>) {
    && |status| == |records|
    && (forall i :: i in Live(status) ==> QueueOk(memSize, records[i]))
    && (forall i, j :: i in Live(status) && j in Live(status) && i != j ==> Apart(records[i], records[j]))
  }

  ghost predicate SameOutside(mem: seq<Byte>, after: seq<Byte>, q: Queue) {
    |mem| == |after| && forall a :: 0 <= a < |mem| && !(q.data <= a < End(q)) ==> mem[a] == after[a]
  }

  /** Every live queue but `id` keeps its record and its elements. */
  ghost predicate OthersSame(mem: seq<Byte>, after: seq<Byte>, status: seq<bool>, records: seq<Queue>,
      changed: seq<Queue>, id: nat)
    requires |mem| == |after| && PoolOk(|mem|, status, records) && PoolOk(|mem|, status, changed)
  {
    forall i :: i in Live(status) && i != id ==>
      changed[i] == records[i] && Fifo(after, changed[i]) == Fifo(mem, records[i])
  }

  /** Isolation: a call that keeps its own queue sound in place, and writes no byte outside
      that queue's buffer, leaves every other live queue's elements alone. */
  lemma OthersUntouched(mem: seq<Byte>, after: seq<Byte>, status: seq<bool>, records: seq<Queue>, id: nat, q: Queue)
    requires PoolOk(|mem|, status, records) && id in Live(status)
    requires SameOutside(mem, after, records[id])
    requires QueueOk(|mem|, q) && q.data == records[id].data && End(q) == End(records[id])
    ensures PoolOk(|mem|, status, records[id := q])
    ensures forall i :: i in Live(status) && i != id ==> Fifo(after, records[i]) == Fifo(mem, records[i])
  {
    forall i | i in Live(status) && i != id
      ensures Fifo(after, records[i]) == Fifo(mem, records[i])
    {
      assert Apart(records[id], records[i]);
      FifoDependsOnOwnBuffer(mem, after, records[i]);
    }
  }

  /** A whole `send` into a queue with room. */
  lemma SendEffect(mem: seq<Byte>, status: seq<bool>, records: seq<Queue>, id: nat, element: seq<Byte>)
    requires PoolOk(|mem|, status, records) && |mem| <= ADDRESS_SPACE && id in Live(status)
    requires records[id].size < records[id].capacity && |element| == records[id].elementSize
    ensures var q := records[id];
            var p := Pushed(q);
            && BlockAt(p, p.head) + q.elementSize <= |mem| && q.elementSize > 0
            && q.data <= BlockAt(p, p.head) && BlockAt(p, p.head) + q.elementSize <= End(q)
            && q.data + Wrap32(q.elementSize * p.head) == BlockAt(p, p.head)
            && var after := Splice(mem, BlockAt(p, p.head), element);
            && PoolOk(|mem|, status, records[id := p])
            && Fifo(after, p) == Fifo(mem, q) + [element]
            && SameOutside(mem, after, q)
            && OthersSame(mem, after, status, records, records[id := p], id)
  {
    var q := records[id];
    PushAppends(mem, q, element);
    IndicesFit(|mem|, Pushed(q));
    OthersUntouched(mem, Splice(mem, BlockAt(Pushed(q), Pushed(q).head), element), status, records, id, Pushed(q));
  }

  lemma NothingChanged(mem: seq<Byte>, status: seq<bool>, records: seq<Queue>, id: nat, q: Queue)
    requires PoolOk(|mem|, status, records)
    ensures OthersSame(mem, mem, status, records, records, id) && SameOutside(mem, mem, q)
  {
  }

  lemma TailBlock(mem: seq<Byte>, status: seq<bool>, records: seq<Queue>, id: nat, at: nat)
    requires PoolOk(|mem|, status, records) && id in Live(status)
    requires at + records[id].elementSize <= records[id].data || End(records[id]) <= at
    ensures var q := records[id];
            && q.elementSize > 0 && q.tail < q.capacity && End(q) <= |mem|
            && |Fifo(mem, q)| == q.size
            && BlockAt(q, q.tail) + q.elementSize <= |mem|
            && mem[BlockAt(q, q.tail)..BlockAt(q, q.tail) + q.elementSize] == Block(mem, q, q.tail)
            && (at <= BlockAt(q, q.tail) || BlockAt(q, q.tail) + q.elementSize <= at)
  {
    BlocksInside(records[id], records[id].tail);
  }

  /** A whole `receive` from a queue that is not empty, to a place clear of every buffer. */
  lemma ReceiveEffect(mem: seq<Byte>, status: seq<bool>, records: seq<Queue>, id: nat, at: nat)
    requires PoolOk(|mem|, status, records) && |mem| <= ADDRESS_SPACE && id in Live(status)
    requires records[id].size > 0 && at + records[id].elementSize <= |mem|
    requires forall i :: i in Live(status) ==> at + records[id].elementSize <= records[i].data || End(records[i]) <= at
    ensures var q := records[id];
            && q.data + Wrap32(q.elementSize * q.tail) == BlockAt(q, q.tail)
            && |Fifo(mem, q)| > 0
            && var element := Fifo(mem, q)[0];
            && element == Block(mem, q, q.tail)
            && PoolOk(|mem|, status, records[id := Popped(q)])
            && var after := Splice(mem, at, element);
            && Fifo(after, Popped(q)) == Fifo(mem, q)[1..]
            && OthersSame(mem, after, status, records, records[id := Popped(q)], id)
  {
    var q := records[id];
    IndicesFit(|mem|, q);
    BlocksInside(q, q.tail);
    PopDropsOldest(mem, q);
    assert ([Block(mem, q, q.tail)] + Fifo(mem, Popped(q)))[1..] == Fifo(mem, Popped(q));
    var element := Block(mem, q, q.tail);
    forall i | i in Live(status)
      ensures Fifo(Splice(mem, at, element), records[i]) == Fifo(mem, records[i])
    {
      WriteBeside(mem, at, element, records[i]);
    }
    WriteBeside(mem, at, element, Popped(q));
  }

  lemma WriteBeside(mem: seq<Byte>, at: nat, element: seq<Byte>, q: Queue)
    requires QueueOk(|mem|, q) && at + |element| <= |mem|
    requires at + |element| <= q.data || End(q) <= at
    ensures Fifo(Splice(mem, at, element), q) == Fifo(mem, q)
  {
    SpliceElsewhere(mem, at, element, q.data, End(q));
    FifoDependsOnOwnBuffer(mem, Splice(mem, at, element), q);
  }

  /** A new, empty queue beside the live ones. */
  lemma PoolGains(memSize: nat, status: seq<bool>, records: seq<Queue>, id: nat, q: Queue)
    requires PoolOk(memSize, status, records) && id < |status| && !status[id]
    requires QueueOk(memSize, q) && forall i :: i in Live(status) ==> Apart(q, records[i])
    ensures PoolOk(memSize, status[id := true], records[id := q])
  {
  }

  /** The queues of the kernel and the memory their static buffers lie in. */
  class QueuePool {
    const queues: MemoryBuffer<Queue>
    const memory: array<Byte>

    ghost predicate Valid()
      reads this, queues, queues.data, queues.status
    {
      && queues.Valid()
      && memory.Length <= ADDRESS_SPACE
      && PoolOk(memory.Length, queues.status[..], queues.data[..])
    }

    ghost predicate IsLive(id: nat)
      reads this, queues, queues.status
    {
      queues.Valid() && id < queues.maxSize && queues.status[id]
    }

    ghost function Elements(id: nat): (c: seq<seq<Byte>>)
      reads this, queues, queues.data, queues.status, memory
      requires Valid() && IsLive(id)
      ensures |c| == queues.data[id].size
    {
      assert id in Live(queues.status[..]);
      Fifo(memory[..], queues.data[id])
    }

    constructor (maxSize: nat, memory: array<Byte>)
      requires memory.Length <= ADDRESS_SPACE
      ensures Valid() && this.memory == memory && queues.maxSize == maxSize
      ensures forall id: nat :: !IsLive(id)
    {
      queues := new MemoryBuffer<Queue>(maxSize);
      this.memory := memory;
      new;
      assert forall id :: 0 <= id < maxSize ==> id !in Live(queues.status[..]);
    }

    /** The checks of the user call, then the creation; the user call reports success only. */
    method StaticCreate(maxElements: nat, elementSize: nat, buffer: nat, name: nat) returns (created: bool)
      requires Valid()
      requires buffer != 0 ==> buffer + elementSize * maxElements <= memory.Length
      requires buffer != 0 ==> forall i: nat :: IsLive(i) ==>
                 buffer + elementSize * maxElements <= queues.data[i].data || End(queues.data[i]) <= buffer
      modifies queues.data, queues.status
      ensures Valid()
      ensures created <==> maxElements > 0 && elementSize > 0 && buffer != 0
                           && |Live(old(queues.status[..]))| < queues.maxSize
      ensures forall i: nat :: old(IsLive(i)) ==> IsLive(i) && Elements(i) == old(Elements(i))
      ensures !created ==> forall i: nat :: IsLive(i) ==> old(IsLive(i))
      ensures created ==>
                var id := LeastFree(old(queues.status[..]));
                && !old(IsLive(id)) && IsLive(id)
                && queues.data[id] == Queue(0, 0, 0, maxElements, elementSize, buffer, name)
                && Elements(id) == []
                && (forall i: nat :: IsLive(i) ==> i == id || old(IsLive(i)))
    {
      if maxElements == 0 || elementSize == 0 || buffer == 0 {
        return false;
      }
      var id := Create(maxElements, elementSize, buffer, name);
      return id.Some?;
    }

    method Create(maxElements: nat, elementSize: nat, buffer: nat, name: nat) returns (id: Option<nat>)
      requires Valid() && maxElements > 0 && elementSize > 0 && buffer != 0
      requires buffer + elementSize * maxElements <= memory.Length
      requires forall i: nat :: IsLive(i) ==>
                 buffer + elementSize * maxElements <= queues.data[i].data || End(queues.data[i]) <= buffer
      modifies queues.data, queues.status
      ensures Valid()
      ensures Outcome(queues.status[..], id) == Step(old(queues.status[..]), Op.Allocate)
      ensures id == None <==> |Live(old(queues.status[..]))| == queues.maxSize
      ensures |Live(old(queues.status[..]))| <= queues.maxSize
      ensures queues.data[..] == (if id == None then old(queues.data[..])
                else old(queues.data[..])[id.value := Queue(0, 0, 0, maxElements, elementSize, buffer, name)])
      ensures forall i: nat :: old(IsLive(i)) ==> IsLive(i) && Elements(i) == old(Elements(i))
    {
      FullExactlyWhenAllLive(queues.status[..]);
      AllocateTakesLeast(queues.status[..]);
      var queue := Queue(0, 0, 0, maxElements, elementSize, buffer, name);
      ghost var status, records := queues.status[..], queues.data[..];
      assert forall i :: i in Live(status) ==> IsLive(i) && Apart(queue, records[i]);
      id := queues.Allocate();
      if id.Some? {
        PoolGains(memory.Length, status, records, id.value, queue);
        queues.Put(id.value, queue);
      }
    }

    /** Names are compared as addresses; the first live queue with the name is opened. */
    method Open(name: nat) returns (id: Option<nat>)
      requires Valid() && name != 0
      ensures match id
              case Some(i) => IsLive(i) && queues.data[i].name == name
                              && forall j: nat :: IsLive(j) && j < i ==> queues.data[j].name != name
              case None => forall j: nat :: IsLive(j) ==> queues.data[j].name != name
    {
      for i := 0 to queues.maxSize
        invariant forall j: nat :: IsLive(j) && j < i ==> queues.data[j].name != name
      {
        var used := queues.IsAllocated(i);
        if used {
          var queue := queues.At(i);
          if name == queue.name {
            return Some(i);
          }
        }
      }
      return None;
    }

    method Destroy(id: nat)
      requires Valid() && id < queues.maxSize
      modifies queues.status
      ensures Valid() && !IsLive(id)
      ensures forall i: nat :: i != id && old(IsLive(i)) ==> IsLive(i) && Elements(i) == old(Elements(i))
      ensures forall i: nat :: IsLive(i) ==> old(IsLive(i))
    {
      queues.Free(id);
    }

    method IsFull(id: nat) returns (full: bool)
      requires Valid() && IsLive(id)
      ensures full <==> |Elements(id)| == queues.data[id].capacity
      ensures |Elements(id)| <= queues.data[id].capacity
    {
      assert id in Live(queues.status[..]);
      var queue := queues.At(id);
      full := queue.size >= queue.capacity;
    }

    method IsEmpty(id: nat) returns (empty: bool)
      requires Valid() && IsLive(id)
      ensures empty <==> Elements(id) == []
    {
      var queue := queues.At(id);
      empty := queue.size == 0;
    }

    method GetSize(id: nat) returns (size: nat)
      requires Valid() && IsLive(id)
      ensures size == |Elements(id)|
    {
      var queue := queues.At(id);
      size := queue.size;
    }

    /** Appends the element at `source`, or changes nothing when the queue is full. */
    method Send(id: nat, source: nat) returns (sent: bool)
      requires Valid() && IsLive(id)
      requires source + queues.data[id].elementSize <= memory.Length
      requires source + queues.data[id].elementSize <= queues.data[id].data || End(queues.data[id]) <= source
      modifies queues.data, memory
      ensures Valid() && queues.data[id].capacity == old(queues.data[id].capacity)
      ensures sent <==> |old(Elements(id))| < queues.data[id].capacity
      ensures Elements(id) == (if sent then old(Elements(id)) + [old(memory[..])[source..source +
              old(queues.data[id].elementSize)]]
                else old(Elements(id)))
      ensures OthersSame(old(memory[..]), memory[..], queues.status[..], old(queues.data[..]), queues.data[..], id)
      ensures SameOutside(old(memory[..]), memory[..], old(queues.data[id]))
    {
      hide Fifo, Block, BlockAt, End, QueueOk, PoolOk, Splice, OthersSame, SameOutside, Wrap32;
      ghost var before, records := memory[..], queues.data[..];
      ghost var element := before[source..source + queues.data[id].elementSize];
      assert id in Live(queues.status[..]);
      var queue := queues.At(id);
      ghost var q := queue;
      var full := IsFull(id);
      if full {
        NothingChanged(before, queues.status[..], records, id, q);
        return false;
      }
      var empty := IsEmpty(id);
      if !empty {
        queue := queue.(head := Wrap32(queue.head + 1));
        if queue.head >= queue.capacity {
          queue := queue.(head := 0);
        }
      }
      queue := queue.(size := queue.size + 1);
      assert queue == Pushed(q);
      SendEffect(before, queues.status[..], records, id, element);
      var offset := Wrap32(queue.elementSize * queue.head);
      Transfer(queue.data + offset, source, id, queue);
      return true;
    }

    /** The byte copy of a call, together with its write-back of the record. */
    method Transfer(destination: nat, source: nat, id: nat, queue: Queue)
      requires queues.Valid() && id < queues.maxSize && queues.status[id] && queue.elementSize > 0
      requires destination + queue.elementSize <= memory.Length && source + queue.elementSize <= memory.Length
      requires destination <= source || source + queue.elementSize <= destination
      modifies queues.data, memory
      ensures memory[..] == Splice(old(memory[..]), destination, old(memory[..])[source..source + queue.elementSize])
      ensures queues.data[..] == old(queues.data[..])[id := queue]
    {
      Copy(memory, destination, source, queue.elementSize);
      queues.Put(id, queue);
    }

    /** Hands the oldest element over at `destination`, or changes nothing when there is none. */
    method Receive(id: nat, destination: nat) returns (received: bool)
      requires Valid() && IsLive(id)
      requires destination + queues.data[id].elementSize <= memory.Length
      requires forall i: nat :: IsLive(i) ==>
                 destination + queues.data[id].elementSize <= queues.data[i].data || End(queues.data[i]) <= destination
      modifies queues.data, memory
      ensures Valid() && queues.data[id].capacity == old(queues.data[id].capacity)
      ensures received <==> old(Elements(id)) != []
      ensures Elements(id) == (if received then old(Elements(id))[1..] else old(Elements(id)))
      ensures memory[..] == (if received then Splice(old(memory[..]), destination, old(Elements(id))[0])
                else old(memory[..]))
      ensures OthersSame(old(memory[..]), memory[..], queues.status[..], old(queues.data[..]), queues.data[..], id)
    {
      hide Fifo, Block, BlockAt, End, QueueOk, PoolOk, Splice, OthersSame, SameOutside, Wrap32;
      ghost var before, records := memory[..], queues.data[..];
      assert id in Live(queues.status[..]);
      var queue := queues.At(id);
      ghost var q := queue;
      var empty := IsEmpty(id);
      if empty {
        NothingChanged(before, queues.status[..], records, id, q);
        return false;
      }
      TailBlock(before, queues.status[..], records, id, destination);
      ReceiveEffect(before, queues.status[..], records, id, destination);
      var offset := Wrap32(queue.elementSize * queue.tail);
      var source := queue.data + offset;
      if queue.size > 1 {
        queue := queue.(tail := Wrap32(queue.tail + 1));
        if queue.tail >= queue.capacity {
          queue := queue.(tail := 0);
        }
      }
      queue := queue.(size := queue.size - 1);
      assert queue == Popped(q);
      Transfer(destination, source, id, queue);
      return true;
    }
  }
}

/** Calls on the queues of one pool, in any interleaving, with queues coming and going. */
module PoolRuns {
  import opened Slots
  import opened Memory
  import opened ByteRings
  import opened BoundedFifo
  import opened QueueRefinement
  import opened StaticQueues

  /** `SendTo` appends an element to a queue, `ReceiveFrom` hands the oldest one over at an
      address outside all queue buffers, `Write` is the users' own use of memory outside them,
      and `Create` and `Destroy` make and end queues. */
  datatype PoolCall =
    | SendTo(id: nat, x: seq<Byte>)
    | ReceiveFrom(id: nat, destination: nat)
    | Write(destination: nat, bytes: seq<Byte>)
    | Create(q: Queue)
    | Destroy(id: nat)

  /** The pool, with what each queue's sends took and receives gave since it was created. */
  datatype Pool = Pool(
    mem: seq<Byte>,
    status: seq<bool>,
    records: seq<Queue>,
    accepted: seq<seq<seq<Byte>>>,
    received: seq<seq<seq<Byte>>>)

  ghost predicate Sound(p: Pool) {
    && PoolOk(|p.mem|, p.status, p.records) && |p.mem| <= ADDRESS_SPACE
    && |p.accepted| == |p.received| == |p.status|
  }

  ghost predicate Clear(p: Pool, at: nat, count: nat)
    requires |p.records| == |p.status|
  {
    && at + count <= |p.mem|
    && forall i :: i in Live(p.status) ==> at + count <= p.records[i].data || End(p.records[i]) <= at
  }

  ghost predicate Fitting(p: Pool, call: PoolCall)
    requires |p.records| == |p.status|
  {
    match call
    case SendTo(id, x) => id in Live(p.status) && |x| == p.records[id].elementSize
    case ReceiveFrom(id, destination) =>
      id in Live(p.status) && Clear(p, destination, p.records[id].elementSize)
    case Write(destination, bytes) => Clear(p, destination, |bytes|)
    case Create(q) =>
      && q.size == q.head == q.tail == 0 && QueueOk(|p.mem|, q)
      && forall i :: i in Live(p.status) ==> Apart(q, p.records[i])
    case Destroy(id) => id < |p.status|
  }

  ghost function DoCall(p: Pool, call: PoolCall): (r: Pool)
    requires Sound(p) && Fitting(p, call)
    ensures Sound(r) && |r.mem| == |p.mem| && |r.status| == |p.status|
  {
    match call
    case SendTo(id, x) =>
      var q := p.records[id];
      if q.size >= q.capacity then p
      else
        SendEffect(p.mem, p.status, p.records, id, x);
        p.(mem := Splice(p.mem, BlockAt(Pushed(q), Pushed(q).head), x), records := p.records[id := Pushed(q)],
           accepted := p.accepted[id := p.accepted[id] + [x]])
    case ReceiveFrom(id, destination) =>
      var q := p.records[id];
      if q.size == 0 then p
      else
        ReceiveEffect(p.mem, p.status, p.records, id, destination);
        var element := Fifo(p.mem, q)[0];
        p.(mem := Splice(p.mem, destination, element), records := p.records[id := Popped(q)],
           received := p.received[id := p.received[id] + [element]])
    case Write(destination, bytes) => p.(mem := Splice(p.mem, destination, bytes))
    case Create(q) =>
      var id := LeastFree(p.status);
      if id == |p.status| then p
      else
        PoolGains(|p.mem|, p.status, p.records, id, q);
        p.(status := p.status[id := true], records := p.records[id := q],
           accepted := p.accepted[id := []], received := p.received[id := []])
    case Destroy(id) => p.(status := p.status[id := false])
  }

  ghost predicate RunFits(start: Pool, calls: seq<PoolCall>)
    requires Sound(start)
    decreases |calls|, 0
  {
    calls == [] ||
    var last := |calls| - 1;
    RunFits(start, calls[..last]) && Fitting(DoCalls(start, calls[..last]), calls[last])
  }

  ghost function DoCalls(start: Pool, calls: seq<PoolCall>): (r: Pool)
    requires Sound(start) && RunFits(start, calls)
    ensures Sound(r) && |r.mem| == |start.mem| && |r.status| == |start.status|
    decreases |calls|, 1
  {
    if calls == [] then start
    else DoCall(DoCalls(start, calls[..|calls| - 1]), calls[|calls| - 1])
  }

  /** The call makes the queue with this id. */
  ghost predicate Makes(p: Pool, call: PoolCall, id: nat) {
    call.Create? && id == LeastFree(p.status) < |p.status|
  }

  /** The calls of a run on the queue with this id, since the last one that made it. */
  ghost function CallsOn(id: nat, start: Pool, calls: seq<PoolCall>): seq<Call<seq<Byte>>>
    requires Sound(start) && RunFits(start, calls)
    decreases |calls|
  {
    if calls == [] then []
    else
      var past, call := calls[..|calls| - 1], calls[|calls| - 1];
      var front := CallsOn(id, start, past);
      if Makes(DoCalls(start, past), call, id) then []
      else if Concerns(call, id) then front + [OnQueue(call)]
      else front
  }

  /** A send to or receive from the queue with this id. */
  predicate Concerns(call: PoolCall, id: nat) {
    (call.SendTo? || call.ReceiveFrom?) && call.id == id
  }

  function OnQueue(call: PoolCall): Call<seq<Byte>>
    requires call.SendTo? || call.ReceiveFrom?
  {
    if call.SendTo? then Send(call.x) else Receive
  }

  /** One queue of the pool, seen alone. */
  ghost function Alone(p: Pool, id: nat): Machine
    requires id < |p.records| && |p.accepted| == |p.received| == |p.records|
  {
    Machine(p.mem, p.records[id], p.accepted[id], p.received[id])
  }

  /** A call on a queue does to it what the bounded store does. */
  lemma OwnCallAgrees(p: Pool, call: PoolCall, id: nat, h: History<seq<Byte>>)
    requires Sound(p) && Fitting(p, call) && id in Live(p.status) && Agree(Alone(p, id), h) && Concerns(call, id)
    ensures var r := DoCall(p, call);
            && r.status == p.status && r.records[id].capacity == p.records[id].capacity
            && Agree(Alone(r, id), Do(p.records[id].capacity, h, OnQueue(call)))
  {
    var q := p.records[id];
    match call {
      case SendTo(_, x) =>
        if q.size < q.capacity {
          SendEffect(p.mem, p.status, p.records, id, x);
        }
      case ReceiveFrom(_, destination) =>
        if q.size > 0 {
          ReceiveEffect(p.mem, p.status, p.records, id, destination);
        }
    }
    hide Fifo, QueueOk, PoolOk, Splice, OthersSame, SameOutside, BlockAt, End;
  }

  /** Any other call leaves it alone, also if it makes or ends another queue. */
  lemma OtherCallAgrees(p: Pool, call: PoolCall, id: nat, h: History<seq<Byte>>)
    requires Sound(p) && Fitting(p, call) && id in Live(p.status) && Agree(Alone(p, id), h) && !Concerns(call, id)
    requires call != Destroy(id)
    ensures var r := DoCall(p, call);
            id in Live(r.status) && r.records[id] == p.records[id] && Agree(Alone(r, id), h)
  {
    match call {
      case SendTo(i, x) =>
        if p.records[i].size < p.records[i].capacity {
          SendEffect(p.mem, p.status, p.records, i, x);
        }
      case ReceiveFrom(i, destination) =>
        if p.records[i].size > 0 {
          ReceiveEffect(p.mem, p.status, p.records, i, destination);
        }
      case Write(destination, bytes) => WriteBeside(p.mem, destination, bytes, p.records[id]);
      case _ =>
    }
    hide Fifo, QueueOk, Splice, SameOutside, BlockAt, End, Popped, Pushed;
  }

  /** A new queue starts as an empty store. */
  lemma NewQueueAgrees(p: Pool, call: PoolCall, id: nat)
    requires Sound(p) && Fitting(p, call) && Makes(p, call, id)
    ensures id in Live(DoCall(p, call).status) && Agree(Alone(DoCall(p, call), id), History([], [], []))
  {
  }

  /** Every live queue is empty and has no past. */
  ghost predicate Fresh(p: Pool)
    requires Sound(p)
  {
    forall id :: id in Live(p.status) ==> p.records[id].size == 0 && p.accepted[id] == [] && p.received[id] == []
  }

  /** Queues of one pool do not disturb each other: over every interleaved run in which queues
      are also made and ended, each queue that is live at the end has done exactly what a
      bounded store does on the calls on it alone since it was made. */
  lemma {:induction false} InterleavedQueuesRefineFifo(start: Pool, calls: seq<PoolCall>, id: nat)
    requires Sound(start) && Fresh(start) && RunFits(start, calls) && id in Live(DoCalls(start, calls).status)
    ensures var r := DoCalls(start, calls);
            var h := Run(r.records[id].capacity, CallsOn(id, start, calls));
            && Agree(Alone(r, id), h)
            && r.received[id] <= r.accepted[id]
            && r.accepted[id] == r.received[id] + Fifo(r.mem, r.records[id])
    decreases |calls|
  {
    RunIsFirstInFirstOut(DoCalls(start, calls).records[id].capacity, CallsOn(id, start, calls));
    if calls != [] {
      var front, last := calls[..|calls| - 1], calls[|calls| - 1];
      var p := DoCalls(start, front);
      if Makes(p, last, id) {
        NewQueueAgrees(p, last, id);
      } else {
        WasLive(p, last, id);
        InterleavedQueuesRefineFifo(start, front, id);
        var h := Run(p.records[id].capacity, CallsOn(id, start, front));
        if Concerns(last, id) {
          OwnCallAgrees(p, last, id, h);
          var past := CallsOn(id, start, front);
          assert (past + [OnQueue(last)])[..|past|] == past;
        } else {
          OtherCallAgrees(p, last, id, h);
        }
      }
    }
    hide PoolOk, QueueOk, Fifo, Fitting, DoCall, Makes;
  }

  lemma WasLive(p: Pool, call: PoolCall, id: nat)
    requires Sound(p) && Fitting(p, call) && id in Live(DoCall(p, call).status) && !Makes(p, call, id)
    ensures id in Live(p.status) && call != Destroy(id)
  {
  }
}
