/** Small helpers shared by the other modules. */
module Basics {

  /** Absent or present value; models Python's `dict.get` returning None. */
  datatype Option<T> = None | Some(value: T)

  function Abs(x: int): nat
  {
    if x < 0 then -x else x
  }

  function Min(a: int, b: int): int
  {
    if a <= b then a else b
  }

  function Max(a: int, b: int): int
  {
    if a <= b then b else a
  }

  /** x lies between a and b, both ends included, whichever of a and b is larger. */
  predicate Between(a: int, x: int, b: int)
  {
    Min(a, b) <= x <= Max(a, b)
  }

  /** The ceiling of d / r for a positive divisor. */
  function CeilDiv(d: nat, r: int): nat
    requires r > 0
  {
    (d + r - 1) / r
  }

  /** The ceiling is the least multiple count covering d. */
  lemma CeilDivBounds(d: nat, r: int)
    requires r > 0
    ensures CeilDiv(d, r) * r >= d
    ensures d == 0 <==> CeilDiv(d, r) == 0
    ensures CeilDiv(d, r) > 0 ==> (CeilDiv(d, r) - 1) * r < d
  {
    var q, m := (d + r - 1) / r, (d + r - 1) % r;
    assert d + r - 1 == q * r + m && 0 <= m < r;
    assert (q - 1) * r == q * r - r;
    if q == 0 {
      assert d + r - 1 == m;
    } else {
      assert q * r >= r;
    }
  }

  /** k * r is monotone in k for a non-negative factor r. */
  lemma MulMonotone(j: int, k: int, r: int)
    requires j <= k && r >= 0
    ensures j * r <= k * r
  {
    assert k * r - j * r == (k - j) * r;
  }

  /** Euclidean division is unique: a quotient and a remainder in [0, r) are THE quotient and remainder. */
  lemma DivUnique(x: int, r: int, q: int, m: int)
    requires r > 0 && 0 <= m < r && x == q * r + m
    ensures x / r == q && x % r == m
  {
    var q', m' := x / r, x % r;
    assert x == q' * r + m' && 0 <= m' < r;
    assert (q - q') * r == m' - m;
    if q - q' > 0 {
      MulMonotone(1, q - q', r);
    } else if q - q' < 0 {
      MulMonotone(q - q', -1, r);
    }
  }
}
