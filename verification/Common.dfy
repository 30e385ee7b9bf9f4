/** What every component uses. */
module Common {
  datatype Option<T> = None | Some(value: T)

  newtype byte = x: int | 0 <= x < 256

  /** Quotient and remainder are determined by the division. */
  lemma {:induction false} Divided(q: int, r: int, d: int)
    requires 0 <= r < d
    ensures (q * d + r) / d == q && (q * d + r) % d == r
  {
    assert (q * d + r) / d * d + (q * d + r) % d == q * d + r;
    assert ((q * d + r) / d - q) * d == r - (q * d + r) % d;
    var z := (q * d + r) / d - q;
    assert z >= 1 ==> z * d >= d;
    assert z <= -1 ==> z * d <= -d;
  }
}
