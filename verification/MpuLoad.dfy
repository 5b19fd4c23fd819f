/** Loading protection regions through the aligned alias window of the MPU
    (external/arm/mpu_armv8.h; registers external/arm/core_armv8mml.h). */
module MpuLoad {

  import opened Handles

  /** One table entry: the values for RBAR and RLAR. */
  datatype Region = Region(rbar: Word, rlar: Word)

  /** Start of the window that holds a region: the mask `~(RALIASES - 1)` for the powers of two
      that RALIASES takes. */
  function WindowOf(rnr: nat, aliases: nat): nat
    requires aliases > 0
  {
    rnr - rnr % aliases
  }

  /** The mask of the source is the remainder of the model for both register layouts. */
  lemma MaskIsRemainder(rnr: bv32)
    ensures rnr & !(4 - 1) == rnr - rnr % 4
    ensures rnr & !(1 - 1) == rnr - rnr % 1
  {
  }

  lemma WindowAligned(rnr: nat, aliases: nat)
    requires aliases > 0
    ensures WindowOf(rnr, aliases) % aliases == 0
    ensures (WindowOf(rnr, aliases) + aliases) % aliases == 0
    ensures 0 <= WindowOf(rnr, aliases) <= rnr < WindowOf(rnr, aliases) + aliases
  {
    var q := rnr / aliases;
    assert WindowOf(rnr, aliases) == aliases * q;
    MultipleIsAligned(aliases * q, q, aliases);
    assert aliases * (q + 1) == aliases * q + aliases;
    MultipleIsAligned(aliases * q + aliases, q + 1, aliases);
  }

  lemma MultipleIsAligned(x: nat, q: nat, m: nat)
    requires m > 0 && x == m * q
    ensures x % m == 0
  {
    var d, r := x / m, x % m;
    assert m * (q - d) == r by {
      assert m * q == m * d + r;
    }
    if q > d {
      Scaled(m, q - d);
    } else if q < d {
      Scaled(m, d - q);
    }
  }

  lemma Scaled(m: nat, a: nat)
    requires a >= 1
    ensures m * a >= m
  {
    assert m * a == m * (a - 1) + m;
  }

  /** A table of regions read as words. */
  function WordAt(table: seq<Region>, i: nat): Word
    requires i < 2 * |table|
  {
    if i % 2 == 0 then table[i / 2].rbar else table[i / 2].rlar
  }

  /** Register words with `count` entries of the table, from entry `from`, written at `at`. */
  function Written(words: seq<Word>, at: nat, table: seq<Region>, from: nat, count: nat): (r: seq<Word>)
    requires from + count <= |table|
    ensures |r| == |words|
    ensures forall k :: 0 <= k < |words| ==>
              r[k] == if at <= k < at + 2 * count then WordAt(table, 2 * from + (k - at)) else words[k]
  {
    seq(|words|, k requires 0 <= k < |words| =>
      if at <= k < at + 2 * count then WordAt(table, 2 * from + (k - at)) else words[k])
  }

  /** Windows written one after the other add up. */
  lemma WindowsAddUp(words: seq<Word>, at: nat, table: seq<Region>, done: nat, more: nat)
    requires done + more <= |table|
    ensures Written(Written(words, at, table, 0, done), at + 2 * done, table, done, more)
            == Written(words, at, table, 0, done + more)
  {
  }

  lemma NothingWritten(words: seq<Word>, at: nat, table: seq<Region>)
    ensures Written(words, at, table, 0, 0) == words
  {
  }

  lemma OffsetInWindow(rnr: nat, aliases: nat)
    requires aliases > 0
    ensures WindowOf(rnr, aliases) + rnr % aliases == rnr && 0 <= rnr % aliases < aliases
    ensures IsAligned(WindowOf(rnr, aliases), aliases)
  {
    WindowAligned(rnr, aliases);
  }

  predicate IsAligned(rnr: nat, aliases: nat) {
    aliases > 0 && rnr % aliases == 0
  }

  lemma NextWindow(base: nat, aliases: nat)
    requires IsAligned(base, aliases)
    ensures WindowOf(base, aliases) == base && IsAligned(base + aliases, aliases)
  {
    WindowAligned(base, aliases);
  }

  class Mpu {
    /** RBAR and RLAR pairs that are reachable with one RNR value. */
    const aliases: nat
    var rnr: nat
    /** RBAR of region r at 2r, RLAR at 2r + 1. */
    const words: array<Word>

    ghost predicate Valid()
      reads this
    {
      aliases > 0 && words.Length % 2 == 0
    }

    function Regions(): nat {
      words.Length / 2
    }

    constructor (aliases: nat, regions: nat)
      requires aliases > 0
      ensures Valid() && this.aliases == aliases && words.Length == 2 * regions && fresh(words)
    {
      this.aliases := aliases;
      rnr := 0;
      words := new Word[2 * regions](_ => 0);
    }

    /** Where a word at an offset from RBAR goes. The first pair is the region in RNR; further pairs
        are the aliases of RNR's window. Past the aliases there are other registers, not regions. */
    function Target(offset: nat): nat
      reads this
      requires offset < 2 * aliases
    {
      if offset < 2 then 2 * rnr + offset else 2 * WindowOf(rnr, aliases) + offset
    }

    /** Copies table words to the registers from window offset `offset` on, inside the window. */
    method OrderedCpy(offset: nat, table: seq<Region>, from: nat, count: nat)
      requires Valid() && offset % 2 == 0 && from + count <= |table|
      requires offset + 2 * count <= 2 * aliases
      requires IsAligned(rnr, aliases) || (offset == 0 && count <= 1)
      requires count > 0 ==> 2 * rnr + offset + 2 * count <= words.Length
      modifies words
      ensures words[..] == Written(old(words[..]), 2 * rnr + offset, table, from, count)
    {
      for i := 0 to 2 * count
        invariant forall r :: 0 <= r < words.Length ==>
                    words[r] == if 2 * rnr + offset <= r < 2 * rnr + offset + i
                                then WordAt(table, 2 * from + (r - 2 * rnr - offset)) else old(words[r])
      {
        words[Target(offset + i)] := WordAt(table, 2 * from + i);
      }
    }

    /** Whatever the alignment and however many windows it takes, `table[i]` ends up in region
        `first + i` for every `i` below `count`, and no other region changes. */
    method LoadEx(first: nat, table: seq<Region>, count: nat)
      requires Valid() && count <= |table| && first + count <= Regions()
      modifies this`rnr, words
      ensures forall r :: 0 <= r < Regions() ==>
                if first <= r < first + count
                then Region(words[2 * r], words[2 * r + 1]) == table[r - first]
                else words[2 * r] == old(words[2 * r]) && words[2 * r + 1] == old(words[2 * r + 1])
    {
      LoadWords(first, table, count);
      forall r | first <= r < first + count
        ensures Region(words[2 * r], words[2 * r + 1]) == table[r - first]
      {
        assert words[..][2 * r] == WordAt(table, 2 * (r - first));
        assert words[..][2 * r + 1] == WordAt(table, 2 * (r - first) + 1);
      }
      forall r | 0 <= r < Regions() && !(first <= r < first + count)
        ensures words[2 * r] == old(words[2 * r]) && words[2 * r + 1] == old(words[2 * r + 1])
      {
        assert words[..][2 * r] == old(words[..])[2 * r];
        assert words[..][2 * r + 1] == old(words[..])[2 * r + 1];
      }
    }

    method LoadWords(first: nat, table: seq<Region>, count: nat)
      requires Valid() && count <= |table| && first + count <= Regions()
      modifies this`rnr, words
      ensures words[..] == Written(old(words[..]), 2 * first, table, 0, count)
    {
      if count == 1 {
        rnr := first;
        OrderedCpy(0, table, 0, 1);
        return;
      }
      LoadWindows(first, table, count);
    }

    /** Window after window: no copy takes more pairs than are left in its window. */
    method LoadWindows(first: nat, table: seq<Region>, count: nat)
      requires Valid() && count <= |table| && first + count <= Regions()
      modifies this`rnr, words
      ensures words[..] == Written(old(words[..]), 2 * first, table, 0, count)
    {
      hide WindowOf, WordAt, Written, IsAligned;
      var base := WindowOf(first, aliases);
      var offset: nat := first % aliases;
      var left: nat, from: nat := count, 0;
      OffsetInWindow(first, aliases);
      rnr := base;
      NothingWritten(words[..], 2 * first, table);
      while offset + left > aliases
        invariant rnr == base && IsAligned(base, aliases) && 0 <= offset < aliases
        invariant from + left == count && base + offset == first + from
        invariant words[..] == Written(old(words[..]), 2 * first, table, 0, from)
        decreases left
      {
        var c := aliases - offset;
        WindowsAddUp(old(words[..]), 2 * first, table, from, c);
        OrderedCpy(2 * offset, table, from, c);
        from := from + c;
        left := left - c;
        offset := 0;
        NextWindow(base, aliases);
        base := base + aliases;
        rnr := base;
      }
      WindowsAddUp(old(words[..]), 2 * first, table, from, left);
      OrderedCpy(2 * offset, table, from, left);
    }
  }
}
