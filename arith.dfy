/** Facts about Euclidean division that the ring buffer and the
    status-class checks need. */
module Arith {
  lemma MulPositive(a: int, b: int)
    requires a >= 1 && b > 0
    ensures a * b >= b
  {
    if a > 1 { MulPositive(a - 1, b); assert a * b == (a - 1) * b + b; }
  }
  lemma DivUnique(x: int, size: int, q: int, r: int)
    requires size > 0 && 0 <= r < size && x == q * size + r
    ensures x % size == r
  {
    var q0, r0 := x / size, x % size;
    assert x == q0 * size + r0;
    var d := q0 - q;
    assert d * size == q0 * size - q * size;
    if d > 0 {
      MulPositive(d, size);
    } else if d < 0 {
      MulPositive(-d, size);
    }
  }
  lemma ModSucc(n: nat, size: nat)
    requires size > 0
    ensures (n + 1) % size == if n % size + 1 < size then n % size + 1 else 0
  {
    var q, r := n / size, n % size;
    if r + 1 < size { DivUnique(n + 1, size, q, r + 1); }
    else { assert (q + 1) * size == q * size + size; DivUnique(n + 1, size, q + 1, 0); }
  }
  lemma ModDistinct(k: nat, n: nat, size: nat)
    requires size > 0 && k < n < k + size
    ensures k % size != n % size
  {
    var q, r := k / size, k % size;
    var d := n - k;
    if r + d < size { DivUnique(n, size, q, r + d); }
    else { assert (q + 1) * size == q * size + size; DivUnique(n, size, q + 1, r + d - size); }
  }
}
