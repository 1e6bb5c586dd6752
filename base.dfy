/** Java-level building blocks shared by the models: nullable references,
    thrown exceptions, 32-bit `int` and 8-bit `byte` arithmetic. */
module Base {

  /** A Java reference that may be null. */
  datatype Option<+T> = None | Some(value: T)

  /** The exceptions the modelled code can throw. */
  datatype Exception =
    | NullPointer           // NullPointerException (NonNull validation, null dereference)
    | IllegalState          // IllegalStateException (builder reuse)
    | ParcelableTooSmall    // BadParcelableException("Parcelable too small")
    | ParcelableOverflow    // BadParcelableException("Overflow in the size of parcelable")
    | MalformedParcel       // a read found bytes that do not hold the expected kind of value

  /** A value, or the exception thrown instead of returning it. */
  datatype Result<+T> = Ok(value: T) | Err(error: Exception)

  const INT32_MIN: int := -0x8000_0000
  const INT32_MAX: int := 0x7fff_ffff

  /** Java `int`. */
  type int32 = x: int | -0x8000_0000 <= x <= 0x7fff_ffff

  /** Java `a - b` on two `int`s: the exact difference, wrapped into 32 bits. */
  function Sub32(a: int32, b: int32): (r: int32)
    ensures (a - b) - r == 0 || (a - b) - r == 0x1_0000_0000 || (a - b) - r == -0x1_0000_0000
    ensures INT32_MIN <= a - b <= INT32_MAX ==> r == a - b
  {
    var d := a - b;
    if d > INT32_MAX then d - 0x1_0000_0000
    else if d < INT32_MIN then d + 0x1_0000_0000
    else d
  }

  /** Java `byte`. */
  type int8 = x: int | -0x80 <= x < 0x80

  /** Java narrowing cast `(byte) x`: keeps the low eight bits, read back
      in two's complement. */
  function Narrow(x: int): (b: int8)
    ensures (x - b) % 0x100 == 0
    ensures -0x80 <= x < 0x80 ==> b == x
  {
    var m := x % 0x100;
    if m < 0x80 then m else m - 0x100
  }

  /** Bit `k` of `x` in two's complement, as Java's `(x & (1 << k)) != 0`. */
  predicate BitSet(x: int, k: nat)
  {
    x / Pow2(k) % 2 == 1
  }

  function Pow2(k: nat): (r: nat)
    ensures r >= 1
  {
    if k == 0 then 1 else 2 * Pow2(k - 1)
  }

  function Abs(x: int): nat
  {
    if x < 0 then -x else x
  }

  /** Java `a | b` on two's complement integers, bit by bit from the lowest:
      0 and -1 (all zeros, all ones) end the recursion. */
  function Or(a: int, b: int): int
    decreases Abs(a) + Abs(b)
  {
    if a == 0 then b
    else if b == 0 then a
    else if a == -1 || b == -1 then -1
    else 2 * Or(a / 2, b / 2) + (if a % 2 == 1 || b % 2 == 1 then 1 else 0)
  }

  lemma {:induction false} MulAtLeast(d: int, t: int)
    requires d > 0 && t >= 1
    ensures d * t >= d
  {
    assert d * t == d + d * (t - 1);
  }

  /** Euclidean division is determined by its quotient-remainder equation. */
  lemma {:induction false} DivUnique(x: int, d: int, q: int, r: int)
    requires d > 0 && 0 <= r < d && x == d * q + r
    ensures x / d == q
  {
    var q' := x / d;
    var r' := x % d;
    assert d * (q' - q) == r - r';
    if q' > q {
      MulAtLeast(d, q' - q);
    } else if q' < q {
      MulAtLeast(d, q - q');
    }
  }

  /** The sign bit of a Java `int`. */
  lemma Pow2Of31()
    ensures Pow2(31) == 0x8000_0000
  {
    assert Pow2(8) == 0x100;
    assert Pow2(16) == 0x1_0000;
    assert Pow2(24) == 0x100_0000;
  }

  /** Bit `k + 1` of `x` is bit `k` of `x` shifted right once. */
  lemma {:induction false} BitSetShift(x: int, k: nat)
    ensures BitSet(x, k + 1) <==> BitSet(x / 2, k)
  {
    var p := Pow2(k);
    var q := (x / 2) / p;
    var r := 2 * ((x / 2) % p) + x % 2;
    assert x == 2 * (x / 2) + x % 2;
    assert x / 2 == p * q + (x / 2) % p;
    assert x == (2 * p) * q + r;
    DivUnique(x, 2 * p, q, r);
  }

  /** 0 has no one bit and -1 has every bit. */
  lemma {:induction false} BitSetEnds(k: nat)
    ensures !BitSet(0, k) && BitSet(-1, k)
  {
    DivUnique(-1, Pow2(k), -1, Pow2(k) - 1);
  }

  /** `Or` sets exactly the bits set in either operand. */
  lemma {:induction false} OrBit(a: int, b: int, k: nat)
    ensures BitSet(Or(a, b), k) <==> BitSet(a, k) || BitSet(b, k)
    decreases k
  {
    BitSetEnds(k);
    if a == 0 || b == 0 || a == -1 || b == -1 {
      return;
    }
    var m := Or(a / 2, b / 2);
    var bit := if a % 2 == 1 || b % 2 == 1 then 1 else 0;
    assert Or(a, b) == 2 * m + bit;
    if k == 0 {
      assert (2 * m + bit) % 2 == bit;
    } else {
      assert (2 * m + bit) / 2 == m;
      BitSetShift(2 * m + bit, k - 1);
      BitSetShift(a, k - 1);
      BitSetShift(b, k - 1);
      OrBit(a / 2, b / 2, k - 1);
    }
  }

  /** `Or` of two `n`-bit two's complement values is an `n`-bit value. */
  lemma {:induction false} OrRange(a: int, b: int, n: nat)
    requires -(Pow2(n) as int) <= a < Pow2(n) && -(Pow2(n) as int) <= b < Pow2(n)
    ensures -(Pow2(n) as int) <= Or(a, b) < Pow2(n)
    decreases n
  {
    if a == 0 || b == 0 || a == -1 || b == -1 {
      return;
    }
    assert n > 0;
    OrRange(a / 2, b / 2, n - 1);
  }

  /** Java `a | b` on two `int`s. */
  function Or32(a: int32, b: int32): (r: int32)
    ensures forall k: nat :: BitSet(r, k) <==> BitSet(a, k) || BitSet(b, k)
  {
    Pow2Of31();
    OrRange(a, b, 31);
    forall k: nat
      ensures BitSet(Or(a, b), k) <==> BitSet(a, k) || BitSet(b, k)
    {
      OrBit(a, b, k);
    }
    Or(a, b)
  }
}
