/** The software bit reversal (`__RBIT` in external/arm/cmsis_gcc.h). Words are numbers below
    2^32: a right shift by one halves, a left shift doubles and drops what leaves 32 bits, and
    setting the low bit of an even number adds. */
module BitReverse {

  const WIDTH: nat := 32

  type Word32 = w: nat | w < 0x1_0000_0000

  function Pow2(n: nat): nat {
    if n == 0 then 1 else 2 * Pow2(n - 1)
  }

  function ShiftRight(x: nat, n: nat): nat {
    if n == 0 then x else ShiftRight(x, n - 1) / 2
  }

  function Bit(x: nat, i: nat): nat {
    ShiftRight(x, i) % 2
  }

  function ShiftLeftOnce(x: Word32): Word32 {
    if x < 0x8000_0000 then 2 * x else 2 * x - 0x1_0000_0000
  }

  function ShiftLeft(x: Word32, n: nat): Word32 {
    if n == 0 then x else ShiftLeftOnce(ShiftLeft(x, n - 1))
  }

  /** Bit `i` of one word is bit `31 - i` of the other. */
  ghost predicate IsReverse(x: Word32, y: Word32) {
    forall i :: 0 <= i < WIDTH ==> Bit(y, WIDTH - 1 - i) == Bit(x, i)
  }

  // ---- bits of shifted numbers -----------------------------------------------

  lemma {:induction false} ShiftFromTop(x: nat, n: nat)
    requires n > 0
    ensures ShiftRight(x, n) == ShiftRight(x / 2, n - 1)
  {
    if n > 1 {
      ShiftFromTop(x, n - 1);
    }
  }

  lemma {:induction false} HighBitAside(x: nat, n: nat, i: nat)
    requires i <= n
    ensures ShiftRight(x + Pow2(n), i) == ShiftRight(x, i) + Pow2(n - i)
  {
    if i > 0 {
      HighBitAside(x, n, i - 1);
      assert Pow2(n - (i - 1)) == 2 * Pow2(n - i);
    }
  }

  lemma TwoTo31()
    ensures Pow2(31) == 0x8000_0000
  {
    assert Pow2(8) == 256;
    assert Pow2(16) == 65536;
    assert Pow2(24) == 0x100_0000;
  }

  /** Dropping bit 31 leaves the bits below it. */
  lemma DropTopBit(x: nat, i: nat)
    requires i < 31
    ensures Bit(x + 0x8000_0000, i) == Bit(x, i)
  {
    TwoTo31();
    HighBitAside(x, 31, i);
    var half := Pow2(31 - i - 1);
    assert Pow2(31 - i) == 2 * half;
  }

  lemma LeftShiftBits(x: Word32, bit: nat, i: nat)
    requires bit <= 1 && i < WIDTH
    ensures Bit(ShiftLeftOnce(x) + bit, i) == if i == 0 then bit else Bit(x, i - 1)
  {
    if i > 0 {
      var y := ShiftLeftOnce(x) + bit;
      ShiftFromTop(y, i);
      if x >= 0x8000_0000 {
        assert y / 2 == x - 0x8000_0000;
        DropTopBit(y / 2, i - 1);
      } else {
        assert y / 2 == x;
      }
    }
  }

  lemma {:induction false} LeftShiftsBits(x: Word32, n: nat, i: nat)
    requires i < WIDTH
    ensures Bit(ShiftLeft(x, n), i) == if i < n then 0 else Bit(x, i - n)
  {
    if n > 0 {
      LeftShiftBits(ShiftLeft(x, n - 1), 0, i);
      if i > 0 {
        LeftShiftsBits(x, n - 1, i - 1);
      }
    }
  }

  lemma {:induction false} ZeroAbove(x: nat, n: nat, i: nat)
    requires ShiftRight(x, n) == 0 && n <= i
    ensures ShiftRight(x, i) == 0
    decreases i
  {
    if n < i {
      ZeroAbove(x, n, i - 1);
    }
  }

  lemma {:induction false} SameBitsSameNumber(x: nat, y: nat, n: nat)
    requires x < Pow2(n) && y < Pow2(n)
    requires forall i :: 0 <= i < n ==> Bit(x, i) == Bit(y, i)
    ensures x == y
  {
    if n > 0 {
      forall i | 0 <= i < n - 1 ensures Bit(x / 2, i) == Bit(y / 2, i) {
        ShiftFromTop(x, i + 1);
        ShiftFromTop(y, i + 1);
        assert Bit(x, i + 1) == Bit(y, i + 1);
      }
      SameBitsSameNumber(x / 2, y / 2, n - 1);
      assert Bit(x, 0) == Bit(y, 0);
    }
  }

  /** Reversing is its own inverse: the reverse of a word's reverse is the word. */
  lemma ReverseTwice(x: Word32, y: Word32, z: Word32)
    requires IsReverse(x, y) && IsReverse(y, z)
    ensures z == x
  {
    TwoTo31();
    forall i | 0 <= i < WIDTH ensures Bit(z, i) == Bit(x, i) {
      assert Bit(z, WIDTH - 1 - (WIDTH - 1 - i)) == Bit(y, WIDTH - 1 - i);
    }
    SameBitsSameNumber(z, x, WIDTH);
  }

  // ---- the loop --------------------------------------------------------------

  /** Stops as soon as only zero bits are left and makes up for them with one shift. */
  method RBit(value: Word32) returns (result: Word32)
    ensures IsReverse(value, result)
  {
    var s: nat := WIDTH - 1;
    var v: Word32 := value;
    result := v;
    v := v / 2;
    while v != 0
      invariant s < WIDTH && v == ShiftRight(value, WIDTH - s)
      invariant forall k :: 0 <= k < WIDTH - s ==> Bit(result, k) == Bit(value, WIDTH - s - 1 - k)
      decreases v
    {
      ghost var n, before := WIDTH - s, result;
      result := ShiftLeftOnce(result);
      result := result + v % 2;
      NotYetDone(value, n);
      s := s - 1;
      forall k | 0 <= k < n + 1 ensures Bit(result, k) == Bit(value, n - k) {
        LeftShiftBits(before, v % 2, k);
      }
      v := v / 2;
    }
    ghost var before := result;
    result := ShiftLeft(result, s);
    forall i | 0 <= i < WIDTH ensures Bit(result, WIDTH - 1 - i) == Bit(value, i) {
      LeftShiftsBits(before, s, WIDTH - 1 - i);
      if i >= WIDTH - s {
        ZeroAbove(value, WIDTH - s, i);
      }
    }
  }

  /** After 32 bits nothing is left, so the count of missing shifts does not run out. */
  lemma NotYetDone(value: Word32, n: nat)
    requires ShiftRight(value, n) != 0
    ensures n < WIDTH
  {
    if n >= WIDTH {
      TwoTo31();
      NothingAbove(value, WIDTH);
      ZeroAbove(value, WIDTH, n);
    }
  }

  lemma {:induction false} NothingAbove(x: nat, n: nat)
    requires x < Pow2(n)
    ensures ShiftRight(x, n) == 0
  {
    if n > 0 {
      NothingAbove(x / 2, n - 1);
      ShiftFromTop(x, n);
    }
  }
}
