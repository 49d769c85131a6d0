/** Floored division, from its defining equation. */
module Division {

  lemma SmallMultiple(k: int, n: int)
    requires n > 0 && -n < k * n < n
    ensures k == 0
  {}

  /** Quotient and remainder are determined by `d == q * n + r` with the remainder in range. */
  lemma DivMod(n: nat, q: int, r: nat)
    requires r < n
    ensures (q * n + r) / n == q && (q * n + r) % n == r
  {
    var d := q * n + r;
    var a, b := d / n, d % n;
    assert d == a * n + b;
    assert (a - q) * n == r - b;
    SmallMultiple(a - q, n);
  }
}
