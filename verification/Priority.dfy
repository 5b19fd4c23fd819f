/** Interrupt priorities: two fields packed into a priority, and four priorities packed into a
    register word (external/arm/core_cm0.h; priority grouping as in section B1.5.4 of the
    ARMv7-M Architecture Reference Manual). */
module Priority {

  /** The `bits` low bits of a number. */
  function Cut(x: bv32, bits: bv32): bv32
    requires bits <= 8
  {
    x & ((1 << bits) - 1)
  }

  /** What lies above the `bits` low bits. */
  function Above(x: bv32, bits: bv32): bv32
    requires bits <= 8
  {
    x >> bits
  }

  /** Number of implemented priority bits (`__NVIC_PRIO_BITS`). */
  predicate Width(bits: bv32) {
    1 <= bits <= 8
  }

  function PreemptBits(group: bv32, bits: bv32): bv32 {
    var g := group & 7;
    if 7 - g > bits then bits else 7 - g
  }

  function SubBits(group: bv32, bits: bv32): bv32 {
    var g := group & 7;
    if g + bits < 7 then 0 else (g - 7) + bits
  }

  /** For every group the two fields share the implemented bits exactly. */
  lemma FieldsFillWidth(group: bv32, bits: bv32)
    requires Width(bits)
    ensures PreemptBits(group, bits) + SubBits(group, bits) == bits
    ensures PreemptBits(group, bits) <= 7 && SubBits(group, bits) <= 8
  {
  }

  function Pack(preempt: bv32, sub: bv32, p: bv32, s: bv32): bv32
    requires p <= 8 && s <= 8
  {
    (Cut(preempt, p) << s) | Cut(sub, s)
  }

  function EncodePriority(group: bv32, preempt: bv32, sub: bv32, bits: bv32): bv32
    requires Width(bits)
  {
    FieldsFillWidth(group, bits);
    Pack(preempt, sub, PreemptBits(group, bits), SubBits(group, bits))
  }

  function DecodePriority(priority: bv32, group: bv32, bits: bv32): (bv32, bv32)
    requires Width(bits)
  {
    FieldsFillWidth(group, bits);
    var p, s := PreemptBits(group, bits), SubBits(group, bits);
    (Cut(Above(priority, s), p), Cut(priority, s))
  }

  lemma PackUnpack(preempt: bv32, sub: bv32, p: bv32, s: bv32)
    requires p <= 8 && s <= 8
    ensures Cut(Above(Pack(preempt, sub, p, s), s), p) == Cut(preempt, p)
    ensures Cut(Pack(preempt, sub, p, s), s) == Cut(sub, s)
    ensures Pack(preempt, sub, p, s) < 1 << (p + s)
  {
  }

  lemma UnpackPack(priority: bv32, p: bv32, s: bv32)
    requires p <= 8 && s <= 8 && priority < 1 << (p + s)
    ensures Pack(Cut(Above(priority, s), p), Cut(priority, s), p, s) == priority
  {
    hide Cut;
    HighPartFits(priority, p, s);
    CutTwice(priority, s);
    SplitAt(priority, s);
  }

  lemma HighPartFits(x: bv32, p: bv32, s: bv32)
    requires p <= 8 && s <= 8 && x < 1 << (p + s)
    ensures Cut(Above(x, s), p) == Above(x, s)
  {
  }

  lemma CutTwice(x: bv32, n: bv32)
    requires n <= 8
    ensures Cut(Cut(x, n), n) == Cut(x, n)
  {
  }

  lemma SplitAt(x: bv32, s: bv32)
    requires s <= 8
    ensures (Above(x, s) << s) | Cut(x, s) == x
  {
  }

  /** Decoding gives back both values, each cut to its field. */
  lemma DecodeUndoesEncode(group: bv32, preempt: bv32, sub: bv32, bits: bv32)
    requires Width(bits)
    ensures PreemptBits(group, bits) <= 7 && SubBits(group, bits) <= 8
    ensures DecodePriority(EncodePriority(group, preempt, sub, bits), group, bits)
            == (Cut(preempt, PreemptBits(group, bits)), Cut(sub, SubBits(group, bits)))
    ensures EncodePriority(group, preempt, sub, bits) < 1 << bits
  {
    hide Pack, PreemptBits, SubBits, Cut;
    FieldsFillWidth(group, bits);
    PackUnpack(preempt, sub, PreemptBits(group, bits), SubBits(group, bits));
  }

  /** One priority is more urgent than another: its preempt value is smaller, or that is the same
      and its sub-priority is smaller. */
  predicate MoreUrgent(p: bv32, s: bv32, p': bv32, s': bv32) {
    p < p' || (p == p' && s < s')
  }

  /** The preempt field is the high one: the smaller encoded number is the more urgent priority,
      with each value cut to its field. */
  lemma PreemptDecidesFirst(group: bv32, bits: bv32, preempt: bv32, sub: bv32, preempt': bv32, sub': bv32)
    requires Width(bits)
    ensures PreemptBits(group, bits) <= 7 && SubBits(group, bits) <= 8
    ensures var p, s := PreemptBits(group, bits), SubBits(group, bits);
            EncodePriority(group, preempt, sub, bits) < EncodePriority(group, preempt', sub', bits)
            <==> MoreUrgent(Cut(preempt, p), Cut(sub, s), Cut(preempt', p), Cut(sub', s))
  {
    hide EncodePriority, PreemptBits, SubBits, Cut, Above, MoreUrgent, Width;
    EncodedParts(group, bits, preempt, sub);
    EncodedParts(group, bits, preempt', sub');
    SplitOrder(EncodePriority(group, preempt, sub, bits), EncodePriority(group, preempt', sub', bits),
               SubBits(group, bits));
  }

  lemma EncodedParts(group: bv32, bits: bv32, preempt: bv32, sub: bv32)
    requires Width(bits)
    ensures PreemptBits(group, bits) <= 7 && SubBits(group, bits) <= 8
    ensures var u, s := EncodePriority(group, preempt, sub, bits), SubBits(group, bits);
            u < 256 && Above(u, s) == Cut(preempt, PreemptBits(group, bits)) && Cut(u, s) == Cut(sub, s)
  {
    DecodeUndoesEncode(group, preempt, sub, bits);
    FieldsFillWidth(group, bits);
    var u, p, s := EncodePriority(group, preempt, sub, bits), PreemptBits(group, bits), SubBits(group, bits);
    hide EncodePriority, PreemptBits, SubBits, Cut, Above;
    HighPartFits(u, p, s);
  }

  lemma SplitOrder(u: bv32, v: bv32, s: bv32)
    requires s <= 8 && u < 256 && v < 256
    ensures u < v <==> MoreUrgent(Above(u, s), Cut(u, s), Above(v, s), Cut(v, s))
  {
  }

  /** Encoding a decoded priority gives it back. */
  lemma EncodeUndoesDecode(priority: bv32, group: bv32, bits: bv32)
    requires Width(bits) && priority < 1 << bits
    ensures var (preempt, sub) := DecodePriority(priority, group, bits);
            EncodePriority(group, preempt, sub, bits) == priority
  {
    hide Pack, PreemptBits, SubBits, Cut;
    FieldsFillWidth(group, bits);
    UnpackPack(priority, PreemptBits(group, bits), SubBits(group, bits));
  }

  // ---- four priorities in a word ---------------------------------------------

  predicate ByteShift(shift: bv32) {
    shift == 0 || shift == 8 || shift == 16 || shift == 24
  }

  /** Bit offset of an interrupt's byte in its word. */
  function ShiftOf(irq: int): (shift: bv32)
    ensures ByteShift(shift)
  {
    if irq % 4 == 0 then 0 else if irq % 4 == 1 then 8 else if irq % 4 == 2 then 16 else 24
  }

  function ByteOf(word: bv32, shift: bv32): bv32
    requires ByteShift(shift)
  {
    (word >> shift) & 0xFF
  }

  function WithByte(word: bv32, shift: bv32, b: bv32): bv32
    requires ByteShift(shift)
  {
    (word & !(0xFF << shift)) | (b << shift)
  }

  /** Priorities sit in the high bits of their byte. */
  function HighBits(priority: bv32, bits: bv32): bv32
    requires Width(bits)
  {
    (priority << (8 - bits)) & 0xFF
  }

  /** In the register's byte the fields meet at the binary point of the group: the preempt value
      fills the bits above bit `group` and the sub-priority those from there down, each from the
      top, as far as bits are implemented. */
  lemma FieldsMeetAtBinaryPoint(group: bv32, preempt: bv32, sub: bv32, bits: bv32)
    requires Width(bits) && group <= 7
    ensures PreemptBits(group, bits) <= 7 - group && SubBits(group, bits) <= 8
    ensures var b, p, s := HighBits(EncodePriority(group, preempt, sub, bits), bits),
                           PreemptBits(group, bits), SubBits(group, bits);
            && b >> (group + 1) == Cut(preempt, p) << (7 - group - p)
            && Cut(b, group + 1) == Cut(sub, s) << (8 - bits)
  {
  }

  lemma ByteReplaced(word: bv32, shift: bv32, other: bv32, b: bv32)
    requires ByteShift(shift) && ByteShift(other) && b <= 0xFF
    ensures ByteOf(WithByte(word, shift, b), other) == if other == shift then b else ByteOf(word, other)
  {
    if other == shift {
      NewByte(word, shift, b);
    } else {
      OldByte(word, shift, other, b);
    }
    hide ByteOf, WithByte;
  }

  lemma NewByte(word: bv32, shift: bv32, b: bv32)
    requires ByteShift(shift) && b <= 0xFF
    ensures ByteOf(WithByte(word, shift, b), shift) == b
  {
  }

  lemma OldByte(word: bv32, shift: bv32, other: bv32, b: bv32)
    requires ByteShift(shift) && ByteShift(other) && other != shift && b <= 0xFF
    ensures ByteOf(WithByte(word, shift, b), other) == ByteOf(word, other)
  {
    var mask := (0xFF as bv32) << shift;
    NoOverlap(shift, other, b);
    assert ((b << shift) >> other) & 0xFF == 0;
    assert (!mask >> other) & 0xFF == 0xFF;
    ShiftParts(word & !mask, b << shift, other);
    ShiftMasked(word, !mask, other);
  }

  lemma NoOverlap(shift: bv32, other: bv32, b: bv32)
    requires ByteShift(shift) && ByteShift(other) && other != shift && b <= 0xFF
    ensures ((b << shift) >> other) & 0xFF == 0
    ensures (!((0xFF as bv32) << shift) >> other) & 0xFF == 0xFF
  {
  }

  lemma ShiftParts(x: bv32, y: bv32, n: bv32)
    requires n < 32
    ensures (x | y) >> n == (x >> n) | (y >> n)
  {
  }

  lemma ShiftMasked(x: bv32, m: bv32, n: bv32)
    requires ByteShift(n) && (m >> n) & 0xFF == 0xFF
    ensures ((x & m) >> n) & 0xFF == (x >> n) & 0xFF
  {
    if n == 0 {
      KeepByte(x, m);
    } else if n == 8 {
      assert (x & m) >> 8 == (x >> 8) & (m >> 8);
      KeepByte(x >> 8, m >> 8);
    } else if n == 16 {
      assert (x & m) >> 16 == (x >> 16) & (m >> 16);
      KeepByte(x >> 16, m >> 16);
    } else {
      assert (x & m) >> 24 == (x >> 24) & (m >> 24);
      KeepByte(x >> 24, m >> 24);
    }
  }

  lemma KeepByte(x: bv32, m: bv32)
    requires m & 0xFF == 0xFF
    ensures (x & m) & 0xFF == x & 0xFF
  {
  }

  lemma HighBitsBack(priority: bv32, bits: bv32)
    requires Width(bits)
    ensures HighBits(priority, bits) <= 0xFF
    ensures HighBits(priority, bits) >> (8 - bits) == Cut(priority, bits)
  {
  }

  function Stored(word: bv32, shift: bv32, priority: bv32, bits: bv32): bv32
    requires Width(bits) && ByteShift(shift)
  {
    WithByte(word, shift, HighBits(priority, bits))
  }

  function Fetched(word: bv32, shift: bv32, bits: bv32): bv32
    requires Width(bits) && ByteShift(shift)
  {
    ByteOf(word, shift) >> (8 - bits)
  }

  /** Storing one byte's priority gives it back cut to its width and leaves the other three. */
  lemma StoreThenFetch(word: bv32, shift: bv32, other: bv32, priority: bv32, bits: bv32)
    requires Width(bits) && ByteShift(shift) && ByteShift(other)
    ensures Fetched(Stored(word, shift, priority, bits), other, bits)
            == if other == shift then Cut(priority, bits) else Fetched(word, other, bits)
  {
    HighBitsBack(priority, bits);
    ByteReplaced(word, shift, other, HighBits(priority, bits));
    hide ByteOf, WithByte, HighBits, Cut;
  }

  /** Byte `i` of a word is `b` now, and its other bits are as they were. */
  predicate ByteWritten(word: bv32, written: bv32, i: int, b: bv32) {
    match i
    case 0 => written == (word & 0xFFFF_FF00) | b
    case 1 => written == (word & 0xFFFF_00FF) | (b << 8)
    case 2 => written == (word & 0xFF00_FFFF) | (b << 16)
    case _ => written == (word & 0x00FF_FFFF) | (b << 24)
  }

  lemma StoredIs(word: bv32, irq: int, priority: bv32, bits: bv32)
    requires Width(bits)
    ensures ByteWritten(word, Stored(word, ShiftOf(irq), priority, bits), irq % 4, (priority << (8 - bits)) & 0xFF)
  {
  }

  /** The priority registers: `ip` for device interrupts, `shp` for system exceptions. */
  class Nvic {
    const bits: bv32
    const ip: array<bv32>
    const shp: array<bv32>

    ghost predicate Valid()
      reads this
    {
      Width(bits) && ip != shp && shp.Length == 2
    }

    /** Device interrupts with a register, and the exceptions with a settable priority. */
    predicate Settable(irq: int) {
      -8 <= irq < 4 * ip.Length
    }

    function IndexOf(irq: int): (i: nat)
      requires Settable(irq) && shp.Length == 2
      ensures i < if irq >= 0 then ip.Length else shp.Length
    {
      if irq >= 0 then irq / 4 else (irq + 16 - 8) / 4
    }

    function PriorityOf(irq: int): bv32
      reads this, ip, shp
      requires Valid() && Settable(irq)
    {
      Fetched(if irq >= 0 then ip[IndexOf(irq)] else shp[IndexOf(irq)], ShiftOf(irq), bits)
    }

    /** The word that holds an interrupt's byte. */
    function RegisterOf(irq: int): bv32
      reads this, ip, shp
      requires Valid() && Settable(irq)
    {
      if irq >= 0 then ip[irq / 4] else shp[(irq + 16 - 8) / 4]
    }

    constructor (bits: bv32, words: nat)
      requires Width(bits)
      ensures Valid() && this.bits == bits && ip.Length == words && fresh(ip) && fresh(shp)
    {
      this.bits := bits;
      ip := new bv32[words](_ => 0);
      shp := new bv32[2](_ => 0);
    }

    /** The interrupt gets the priority, cut to the implemented bits; no other one changes. In the
        register the priority fills the byte of its interrupt from the top, the rest of that byte
        is zero, and every other bit of every register is as it was. */
    method SetPriority(irq: int, priority: bv32)
      requires Valid() && Settable(irq)
      modifies ip, shp
      ensures PriorityOf(irq) == Cut(priority, bits)
      ensures forall other :: Settable(other) && other != irq ==> PriorityOf(other) == old(PriorityOf(other))
      ensures ByteWritten(old(RegisterOf(irq)), RegisterOf(irq), irq % 4, (priority << (8 - bits)) & 0xFF)
      ensures forall i :: 0 <= i < ip.Length && !(irq >= 0 && i == irq / 4) ==> ip[i] == old(ip[i])
      ensures forall i :: 0 <= i < 2 && !(irq < 0 && i == (irq + 16 - 8) / 4) ==> shp[i] == old(shp[i])
    {
      hide Fetched, Stored, Cut, ByteWritten;
      var i, shift := IndexOf(irq), ShiftOf(irq);
      ghost var word := if irq >= 0 then ip[i] else shp[i];
      if irq >= 0 {
        ip[i] := Stored(ip[i], shift, priority, bits);
      } else {
        shp[i] := Stored(shp[i], shift, priority, bits);
      }
      StoreThenFetch(word, shift, shift, priority, bits);
      StoredIs(word, irq, priority, bits);
      forall other | Settable(other) && other != irq
        ensures PriorityOf(other) == old(PriorityOf(other))
      {
        StoreThenFetch(word, shift, ShiftOf(other), priority, bits);
      }
    }

    method GetPriority(irq: int) returns (priority: bv32)
      requires Valid() && Settable(irq)
      ensures priority == PriorityOf(irq)
    {
      var i, shift := IndexOf(irq), ShiftOf(irq);
      if irq >= 0 {
        priority := ByteOf(ip[i], shift) >> (8 - bits);
      } else {
        priority := ByteOf(shp[i], shift) >> (8 - bits);
      }
    }

    /** Encoding, storing, reading and decoding gives back both fields. */
    method SetGrouped(irq: int, group: bv32, preempt: bv32, sub: bv32) returns (p: bv32, s: bv32)
      requires Valid() && Settable(irq)
      modifies ip, shp
      ensures PreemptBits(group, bits) <= 7 && SubBits(group, bits) <= 8
      ensures p == Cut(preempt, PreemptBits(group, bits))
      ensures s == Cut(sub, SubBits(group, bits))
    {
      DecodeUndoesEncode(group, preempt, sub, bits);
      var encoded := EncodePriority(group, preempt, sub, bits);
      SetPriority(irq, encoded);
      var read := GetPriority(irq);
      assert Cut(encoded, bits) == encoded;
      var decoded := DecodePriority(read, group, bits);
      p, s := decoded.0, decoded.1;
    }
  }
}
