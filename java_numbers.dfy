/** Java's fixed-width integers, written out over unbounded `int`:
    two's complement wrap-around, shifts and the bitwise `|` and `&` of `long`. */
module JavaNumbers {

  const TWO_31: int := 0x8000_0000
  const TWO_32: int := 0x1_0000_0000
  const TWO_63: int := 0x8000_0000_0000_0000
  const TWO_64: int := 0x1_0000_0000_0000_0000

  /** The values of a Java `long`. */
  type int64 = x: int | -TWO_63 <= x < TWO_63

  function Pow2(k: nat): (r: nat)
    ensures r >= 1
  {
    if k == 0 then 1 else 2 * Pow2(k - 1)
  }

  lemma {:induction false} Pow2Add(a: nat, b: nat)
    ensures Pow2(a + b) == Pow2(a) * Pow2(b)
  {
    if a > 0 {
      Pow2Add(a - 1, b);
      assert Pow2(a + b) == 2 * Pow2(a - 1 + b);
    }
  }

  lemma Pow2Of32()
    ensures Pow2(32) == TWO_32
  {
    assert Pow2(2) == 4;
    Pow2Add(2, 2);
    Pow2Add(4, 4);
    Pow2Add(8, 8);
    Pow2Add(16, 16);
  }

  /** The `long` whose 64 bits are the low 64 bits of `x` (Java's narrowing and overflow). */
  function ToLong(x: int): (r: int64)
    ensures (x - r) % TWO_64 == 0
    ensures -TWO_63 <= x < TWO_63 ==> r == x
  {
    var u := x % TWO_64;
    if u < TWO_63 then u else u - TWO_64
  }

  /** The `int` whose 32 bits are the low 32 bits of `x` (`Long.intValue()`). */
  function ToInt(x: int): (r: int)
    ensures -TWO_31 <= r < TWO_31
    ensures (x - r) % TWO_32 == 0
    ensures -TWO_31 <= x < TWO_31 ==> r == x
  {
    var u := x % TWO_32;
    if u < TWO_31 then u else u - TWO_32
  }

  /** The 64 bits of a `long`, read as an unsigned number. */
  function Bits(x: int64): (u: nat)
    ensures u < TWO_64
    ensures 0 <= x ==> u == x
  {
    x % TWO_64
  }

  /** Bitwise or of two non-negative numbers, bit by bit from the least significant. */
  function Or(a: nat, b: nat): nat
    decreases a + b
  {
    if a == 0 && b == 0 then 0
    else 2 * Or(a / 2, b / 2) + (if a % 2 == 1 || b % 2 == 1 then 1 else 0)
  }

  /** Bitwise and of two non-negative numbers. */
  function And(a: nat, b: nat): nat
    decreases a + b
  {
    if a == 0 || b == 0 then 0
    else 2 * And(a / 2, b / 2) + (if a % 2 == 1 && b % 2 == 1 then 1 else 0)
  }

  /** Java `x << 32` on a `long`. */
  function ShiftLeft32(x: int64): int64
  {
    ToLong(x * TWO_32)
  }

  /** Java `x >> 32` on a `long`: the arithmetic shift, which rounds toward minus infinity;
      Dafny's division by a positive divisor rounds the same way. */
  function ShiftRight32(x: int64): int64
  {
    x / TWO_32
  }

  /** Java `a | b` on `long`s. */
  function LongOr(a: int64, b: int64): int64
  {
    ToLong(Or(Bits(a), Bits(b)))
  }

  /** Java `a & b` on `long`s. */
  function LongAnd(a: int64, b: int64): int64
  {
    ToLong(And(Bits(a), Bits(b)))
  }

  lemma {:induction false} OrZero(a: nat)
    ensures Or(a, 0) == a
  {
    if a != 0 {
      OrZero(a / 2);
    }
  }

  lemma {:induction false} AndZero(a: nat)
    ensures And(a, 0) == 0
  {
  }

  /** Or-ing a number below 2^k into a multiple of 2^k is addition: the bits do not overlap. */
  lemma {:induction false} OrDisjoint(a: nat, b: nat, k: nat)
    requires b < Pow2(k)
    ensures Or(a * Pow2(k), b) == a * Pow2(k) + b
  {
    if k == 0 {
      OrZero(a);
    } else {
      var p := Pow2(k - 1);
      var x := a * Pow2(k);
      assert x == 2 * (a * p);
      if x != 0 || b != 0 {
        assert x / 2 == a * p && x % 2 == 0;
        OrDisjoint(a, b / 2, k - 1);
        assert Or(x, b) == 2 * Or(a * p, b / 2) + b % 2;
      }
    }
  }

  /** Masking with 2^k - 1 keeps exactly the low k bits. */
  lemma {:induction false} AndLowMask(a: nat, b: nat, k: nat)
    requires b < Pow2(k)
    ensures And(a * Pow2(k) + b, Pow2(k) - 1) == b
  {
    if k == 0 {
      AndZero(a * Pow2(k) + b);
    } else {
      var p := Pow2(k - 1);
      var x := a * Pow2(k) + b;
      assert a * Pow2(k) == 2 * (a * p);
      assert x / 2 == a * p + b / 2 && x % 2 == b % 2;
      assert (Pow2(k) - 1) / 2 == p - 1 && (Pow2(k) - 1) % 2 == 1;
      AndLowMask(a, b / 2, k - 1);
      if b == 0 {
        if x == 0 {
          assert And(x, Pow2(k) - 1) == 0;
        }
      }
    }
  }
}
