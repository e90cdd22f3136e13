/** The pieces of C# integer semantics the model needs written out: the
    32-bit wrap-around of `int` shifts and `Interlocked.Increment`, and
    integer division that truncates toward zero. */
module CSharpInt {

  const Int32Min: int := -0x8000_0000
  const Int32Max: int := 0x7FFF_FFFF

  predicate IsInt32(x: int) { Int32Min <= x <= Int32Max }

  /** The two's-complement reinterpretation of `x` as a 32-bit `int`. */
  function WrapInt32(x: int): (r: int)
    ensures IsInt32(r)
    ensures (r - x) % 0x1_0000_0000 == 0
    ensures IsInt32(x) ==> r == x
  {
    var m := x % 0x1_0000_0000;
    if m <= Int32Max then m else m - 0x1_0000_0000
  }

  /** `x << k` on a 32-bit `int`: the bits shifted past bit 31 are lost. */
  function ShiftLeftInt32(x: int, k: nat): (r: int)
    requires IsInt32(x) && k < 32
    ensures IsInt32(r)
    ensures (r - x * Pow2(k)) % 0x1_0000_0000 == 0
    ensures IsInt32(x * Pow2(k)) ==> r == x * Pow2(k)
  {
    WrapInt32(x * Pow2(k))
  }

  /** `x >> k` on a 32-bit `int` is an arithmetic shift: it rounds toward
      negative infinity, which is Dafny's Euclidean division by a positive
      divisor. */
  function ShiftRightInt32(x: int, k: nat): (r: int)
    requires IsInt32(x) && k < 32
    ensures IsInt32(r)
    ensures r * Pow2(k) <= x < (r + 1) * Pow2(k)
  {
    var p := Pow2(k);
    FloorDivBounds(x, p);
    assert (x / p + 1) * p == (x / p) * p + p;
    x / p
  }

  /** Euclidean division by a positive divisor rounds down and moves the
      quotient towards zero, never past it. */
  lemma FloorDivBounds(x: int, p: int)
    requires p >= 1
    ensures 0 <= x - (x / p) * p < p
    ensures x >= 0 ==> 0 <= x / p <= x
    ensures x < 0 ==> x <= x / p < 0
  {
    QuotientBounds(x, p, x / p, x % p);
  }

  /** The same bounds for any quotient and remainder of `x` by `p`. */
  lemma QuotientBounds(x: int, p: int, q: int, m: int)
    requires p >= 1 && x == q * p + m && 0 <= m < p
    ensures x >= 0 ==> 0 <= q <= x
    ensures x < 0 ==> x <= q < 0
  {
    assert (q + 1) * p == q * p + p;
    if x >= 0 {
      MulSign(q + 1, p);
      MulSign(q, p - 1);
      assert q * (p - 1) == q * p - q;
    } else {
      MulSign(q, p);
      MulSign(-(q + 1), p - 1);
      assert -(q + 1) * (p - 1) == (q + 1) - (q + 1) * p;
    }
  }

  /** The product with a non-negative factor has the sign of the other factor. */
  lemma MulSign(a: int, b: int)
    requires b >= 0
    ensures a >= 0 ==> a * b >= 0
    ensures a * b > 0 ==> a > 0
  {
  }

  function Pow2(k: nat): (r: nat)
    ensures r >= 1
  {
    if k == 0 then 1 else 2 * Pow2(k - 1)
  }

  function Abs(x: int): nat { if x < 0 then -x else x }

  /** C# `a / b` on integers, for the positive divisors the model needs:
      the quotient truncated toward zero, so the remainder `a - q * b` is
      smaller than `b` in magnitude and never has the opposite sign of `a`. */
  function TruncatingDiv(a: int, b: int): (q: int)
    requires b > 0
    ensures Abs(a - q * b) < b
    ensures a >= 0 ==> a - q * b >= 0
    ensures a <= 0 ==> a - q * b <= 0
  {
    FloorDivBounds(Abs(a), b);
    var q := Abs(a) / b;
    if a >= 0 then q
    else assert (-q) * b == -(q * b); -q
  }

  /** `Interlocked.Increment` on an `int`: wraps from Int32Max to Int32Min. */
  function IncrementInt32(x: int): (r: int)
    requires IsInt32(x)
    ensures IsInt32(r)
    ensures x < Int32Max ==> r == x + 1
    ensures x == Int32Max ==> r == Int32Min
  {
    WrapInt32(x + 1)
  }

  /** The `(uint)` cast of an `int`. */
  function ToUInt32(x: int): (r: nat)
    requires IsInt32(x)
    ensures r < 0x1_0000_0000
    ensures x >= 0 ==> r == x
    ensures x < 0 ==> r == x + 0x1_0000_0000
  {
    if x >= 0 then x else x + 0x1_0000_0000
  }
}
