/** Division facts shared by the byte-level modules. */
module Numbers {
  /** The parts of a number split at a multiple of 'd'. */
  lemma Split(t: nat, d: nat, q: nat, r: nat)
    requires r < d && t == q * d + r
    ensures t / d == q && t % d == r
  {
    var k := t / d - q;
    assert k * d == r - t % d;
    assert k >= 1 ==> k * d >= d;
    assert k <= -1 ==> k * d + d <= 0;
  }
}
