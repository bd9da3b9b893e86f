/** The C++ right shift `x >> n` of a signed integer, written out as what it
    is on a two's-complement machine: `n` halvings, each rounding toward
    negative infinity. Dafny's `/` by a positive divisor is floor division,
    so one halving is `x / 2` for negative `x` as well. */
module ArithShift {

  function Pow2(n: nat): (p: nat)
    ensures p >= 1
  {
    if n == 0 then 1 else 2 * Pow2(n - 1)
  }

  /** Arithmetic shift right by `n` bits: the sign is kept and the
      magnitude never grows. */
  function ShiftRight(x: int, n: nat): (r: int)
    ensures 0 <= x ==> 0 <= r <= x
    ensures x < 0 ==> x <= r < 0
    decreases n
  {
    if n == 0 then x else ShiftRight(x / 2, n - 1)
  }

  /** Euclidean division has a unique quotient. */
  lemma DivUnique(x: int, d: int, q: int, r: int)
    requires d > 0 && 0 <= r < d && x == d * q + r
    ensures x / d == q
  {
    var q', r' := x / d, x % d;
    assert d * q - d * q' == r' - r;
    var k := q - q';
    assert d * k == d * q - d * q';
    if k >= 1 {
      MulAtLeast(d, k);
    } else if k <= -1 {
      MulAtLeast(d, -k);
    }
  }

  lemma MulAtLeast(d: int, k: int)
    requires d > 0 && k >= 1
    ensures d * k >= d
  {
    assert d * k == d * (k - 1) + d;
  }

  /** Dividing twice is dividing once by the product. */
  lemma DivDiv(x: int, a: int, b: int)
    requires a > 0 && b > 0
    ensures (x / a) / b == x / (a * b)
  {
    var q, r := x / a, x % a;
    var q2, r2 := q / b, q % b;
    Regroup(a, b, q2, r2);
    RemainderBound(a, b, r2, r);
    DivUnique(x, a * b, q2, a * r2 + r);
  }

  lemma Regroup(a: int, b: int, q: int, r: int)
    ensures a * (b * q + r) == (a * b) * q + a * r
  {
  }

  lemma RemainderBound(a: int, b: int, r2: int, r: int)
    requires a > 0 && 0 <= r2 < b && 0 <= r < a
    ensures 0 <= a * r2 + r < a * b
  {
    MulAtLeast(a, b - r2);
    assert a * (b - r2) == a * b - a * r2;
  }

  /** Shifting right by `n` bits is floor division by 2^n, negative values
      included. */
  lemma {:induction false} ShiftRightIsFloorDiv(x: int, n: nat)
    ensures ShiftRight(x, n) == x / Pow2(n)
    decreases n
  {
    if n > 0 {
      ShiftRightIsFloorDiv(x / 2, n - 1);
      DivDiv(x, 2, Pow2(n - 1));
    }
  }
}
