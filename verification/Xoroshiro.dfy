/** The xoroshiro128+ generator: its state map, its output and its jump function. */
module Xoroshiro {
  datatype State = State(a: bv64, b: bv64)

  const ZERO := State(0, 0)

  function Rotl(x: bv64, k: bv7): bv64
    requires 0 < k < 64
  {
    (x << k) | (x >> (64 - k))
  }

  function Xor64(x: bv64, y: bv64): bv64
  {
    x ^ y
  }

  function Shl14(x: bv64): bv64
  {
    x << 14
  }

  function Mix(x: bv64, y: bv64): bv64
  {
    Xor64(Xor64(x, y), Shl14(y))
  }

  /** Addition modulo 2^64. */
  function Add64(x: bv64, y: bv64): bv64
  {
    x + y
  }

  /** The sum of words without a common bit is their union, and a word added to itself moves up by one place, its
      top bit out. */
  lemma SumMeans(x: bv64, y: bv64)
    ensures x & y == 0 ==> Add64(x, y) == x | y
    ensures Add64(x, x) == x << 1
  {
  }

  /** The state after one step. */
  function Advance(s: State): State
  {
    var y := Xor64(s.b, s.a);
    State(Mix(Rotl(s.a, 55), y), Rotl(y, 36))
  }

  function Xor(s: State, t: State): State
  {
    State(Xor64(s.a, t.a), Xor64(s.b, t.b))
  }

  /** The state before one step. */
  function Retreat(s: State): State
  {
    var y := Rotl(s.b, 28);
    var a := Rotl(Mix(s.a, y), 9);
    State(a, Xor64(y, a))
  }

  /** The state after 'n' steps. */
  function After(n: nat, s: State): State
  {
    if n == 0 then s else Advance(After(n - 1, s))
  }

  // ---------- the step bit by bit ----------

  /** Bit 'j' of a word, counted from the least significant. */
  predicate Lit(x: bv64, j: bv7)
    requires j < 64
  {
    (x >> j) & 1 == 1
  }

  /** The places from which a bit comes when bits move up and around. */
  function From55(j: bv7): (k: bv7)
    requires j < 64
    ensures k < 64
  {
    if j < 55 then j + 9 else j - 55
  }

  function From36(j: bv7): (k: bv7)
    requires j < 64
    ensures k < 64
  {
    if j < 36 then j + 28 else j - 36
  }

  lemma Rotl55Bit(x: bv64, j: bv7)
    requires j < 64
    ensures Lit(Rotl(x, 55), j) == Lit(x, From55(j))
  {
  }

  lemma Rotl36Bit(x: bv64, j: bv7)
    requires j < 64
    ensures Lit(Rotl(x, 36), j) == Lit(x, From36(j))
  {
  }

  lemma Shl14Bit(x: bv64, j: bv7)
    requires j < 64
    ensures Lit(Shl14(x), j) == (j >= 14 && Lit(x, j - 14))
  {
  }

  lemma XorBit(x: bv64, y: bv64, j: bv7)
    requires j < 64
    ensures Lit(Xor64(x, y), j) == (Lit(x, j) != Lit(y, j))
  {
    var z := Xor64(x, y);
    assert z == x ^ y;
    hide Xor64;
    PlainXorBit(x, y, j);
  }

  lemma PlainXorBit(x: bv64, y: bv64, j: bv7)
    requires j < 64
    ensures Lit(x ^ y, j) == (Lit(x, j) != Lit(y, j))
  {
  }

  predicate Odd(a: bool, b: bool, c: bool)
  {
    (a != b) != c
  }

  /** Every bit of the next state, by the bits of this one: 'y' is the XOR of both words, bits move up by 55 or 36
      places and around, or up by 14 places and out. */
  lemma StepBits(s: State, j: bv7)
    requires j < 64
    ensures Lit(Xor64(s.b, s.a), j) == (Lit(s.b, j) != Lit(s.a, j))
    ensures Lit(Advance(s).a, j) == Odd(Lit(s.a, From55(j)), Lit(Xor64(s.b, s.a), j), j >= 14 && Lit(Xor64(s.b, s.a), j - 14))
    ensures Lit(Advance(s).b, j) == Lit(Xor64(s.b, s.a), From36(j))
  {
    hide Rotl, Xor64, Shl14, Lit, From55, From36, Odd;
    XorBit(s.b, s.a, j);
    FirstWordBits(s.a, Xor64(s.b, s.a), j);
    Rotl36Bit(Xor64(s.b, s.a), j);
  }

  lemma FirstWordBits(a: bv64, y: bv64, j: bv7)
    requires j < 64
    ensures Lit(Mix(Rotl(a, 55), y), j) == Odd(Lit(a, From55(j)), Lit(y, j), j >= 14 && Lit(y, j - 14))
  {
    hide Rotl, Xor64, Shl14, Lit, From55;
    Rotl55Bit(a, j);
    Shl14Bit(y, j);
    XorBit(Rotl(a, 55), y, j);
    XorBit(Xor64(Rotl(a, 55), y), Shl14(y), j);
  }

  // ---------- linearity and inverse ----------

  lemma XorAssociative(a: bv64, b: bv64, c: bv64)
    ensures Xor64(Xor64(a, b), c) == Xor64(a, Xor64(b, c))
  {
  }

  lemma XorCommutes(a: bv64, b: bv64)
    ensures Xor64(a, b) == Xor64(b, a)
  {
  }

  lemma XorSelf(a: bv64, b: bv64)
    ensures Xor64(Xor64(a, b), b) == a
  {
  }

  lemma XorRegroup(a: bv64, b: bv64, c: bv64, d: bv64)
    ensures Xor64(Xor64(a, b), Xor64(c, d)) == Xor64(Xor64(a, c), Xor64(b, d))
  {
    hide Xor64;
    XorAssociative(a, b, Xor64(c, d));
    XorAssociative(b, c, d);
    XorCommutes(b, c);
    XorAssociative(c, b, d);
    XorAssociative(a, c, Xor64(b, d));
  }

  lemma Shl14Xor(x: bv64, y: bv64)
    ensures Shl14(Xor64(x, y)) == Xor64(Shl14(x), Shl14(y))
  {
  }

  lemma Rotl55Xor(x: bv64, y: bv64)
    ensures Rotl(Xor64(x, y), 55) == Xor64(Rotl(x, 55), Rotl(y, 55))
  {
  }

  lemma Rotl36Xor(x: bv64, y: bv64)
    ensures Rotl(Xor64(x, y), 36) == Xor64(Rotl(x, 36), Rotl(y, 36))
  {
  }

  lemma MixXor(a: bv64, b: bv64, c: bv64, d: bv64)
    ensures Mix(Xor64(a, b), Xor64(c, d)) == Xor64(Mix(a, c), Mix(b, d))
  {
    Shl14Xor(c, d);
    XorRegroup(a, b, c, d);
    XorRegroup(Xor64(a, c), Xor64(b, d), Shl14(c), Shl14(d));
    hide Xor64, Shl14;
  }

  /** The step is linear over XOR. */
  lemma {:induction false} AdvanceIsLinear(s: State, t: State)
    ensures Advance(Xor(s, t)) == Xor(Advance(s), Advance(t))
  {
    XorRegroup(s.b, t.b, s.a, t.a);
    Rotl55Xor(s.a, t.a);
    var y, z := Xor64(s.b, s.a), Xor64(t.b, t.a);
    Rotl36Xor(y, z);
    MixXor(Rotl(s.a, 55), Rotl(t.a, 55), y, z);
    hide Rotl, Xor64, Mix;
  }

  lemma Rotl36Inverse(x: bv64)
    ensures Rotl(Rotl(x, 36), 28) == x
  {
  }

  lemma Rotl28Inverse(x: bv64)
    ensures Rotl(Rotl(x, 28), 36) == x
  {
  }

  lemma Rotl55Inverse(x: bv64)
    ensures Rotl(Rotl(x, 55), 9) == x
  {
  }

  lemma Rotl9Inverse(x: bv64)
    ensures Rotl(Rotl(x, 9), 55) == x
  {
  }

  lemma XorCancel(a: bv64, y: bv64)
    ensures Mix(Mix(a, y), y) == a
    ensures Xor64(Xor64(a, y), y) == a && Xor64(y, Xor64(a, y)) == a && Xor64(Xor64(y, a), a) == y
  {
    var t := Shl14(y);
    XorSelf(a, y);
    XorSelf(y, a);
    XorCommutes(y, Xor64(a, y));
    XorRegroup(Xor64(a, y), t, y, t);
    XorAssociative(Xor64(Xor64(a, y), t), y, t);
    XorAssociative(Xor64(a, y), y, Xor64(t, t));
    XorZero(t, a);
    hide Xor64, Shl14;
  }

  lemma XorZero(t: bv64, a: bv64)
    ensures Xor64(t, t) == 0 && Xor64(a, 0) == a
  {
  }

  lemma RetreatUndoes(s: State)
    ensures Retreat(Advance(s)) == s
  {
    hide Rotl, Xor64, Mix;
    var y := Xor64(s.b, s.a);
    Rotl36Inverse(y);
    XorCancel(Rotl(s.a, 55), y);
    Rotl55Inverse(s.a);
    XorCancel(s.b, s.a);
  }

  lemma AdvanceUndoes(s: State)
    ensures Advance(Retreat(s)) == s
  {
    hide Rotl, Xor64, Mix;
    var y := Rotl(s.b, 28);
    var a := Rotl(Mix(s.a, y), 9);
    XorCancel(y, a);
    Rotl9Inverse(Mix(s.a, y));
    XorCancel(s.a, y);
    Rotl28Inverse(s.b);
  }

  /** The step is a bijection. */
  lemma {:induction false} AdvanceIsInvertible(s: State)
    ensures Retreat(Advance(s)) == s == Advance(Retreat(s))
  {
    hide Advance, Retreat;
    RetreatUndoes(s);
    AdvanceUndoes(s);
  }

  // ---------- runs ----------

  lemma ZeroIsFixed()
    ensures Advance(ZERO) == ZERO
  {
  }

  /** A run reaches the all-zero state only from the all-zero state. */
  lemma {:induction false} NonzeroForever(n: nat, s: State)
    ensures After(n, s) == ZERO <==> s == ZERO
  {
    if n > 0 {
      NonzeroForever(n - 1, s);
      AdvanceIsInvertible(After(n - 1, s));
      AdvanceIsInvertible(ZERO);
      ZeroIsFixed();
    }
  }

  /** Runs from different states never meet at the same step. */
  lemma {:induction false} RunsNeverMerge(n: nat, s: State, t: State)
    requires After(n, s) == After(n, t)
    ensures s == t
  {
    if n > 0 {
      AdvanceIsInvertible(After(n - 1, s));
      AdvanceIsInvertible(After(n - 1, t));
      RunsNeverMerge(n - 1, s, t);
    }
  }

  lemma {:induction false} AfterSwaps(n: nat, s: State)
    ensures After(n, Advance(s)) == Advance(After(n, s))
  {
    hide Advance;
    if n > 0 { AfterSwaps(n - 1, s); }
  }

  // ---------- jump ----------

  const JUMP: seq<bv64> := [0xbeac0467eba5facb, 0xd86b048b86aa9922]

  predicate Bit(w: bv64, b: nat)
    requires b < 64
  {
    w & ((1 as bv64) << b) != 0
  }

  /** Whether jump() selects the 'k'-th following state. */
  predicate Selected(k: nat)
    requires k < 128
  {
    Bit(JUMP[k / 64], k % 64)
  }

  lemma SelectedAt(i: nat, b: nat)
    requires i < 2 && b < 64
    ensures Selected(64 * i + b) == Bit(JUMP[i], b)
  {
    hide Bit;
    assert (64 * i + b) / 64 == i && (64 * i + b) % 64 == b;
  }

  /** The XOR of the selected states among the first 'n' of a run. */
  function SelectedSum(n: nat, s: State): State
    requires n <= 128
  {
    if n == 0 then ZERO
    else if Selected(n - 1) then Xor(SelectedSum(n - 1, s), After(n - 1, s))
    else SelectedSum(n - 1, s)
  }

  function Jumped(s: State): State
  {
    SelectedSum(128, s)
  }

  lemma {:induction false} SumCommutes(n: nat, s: State)
    requires n <= 128
    ensures Advance(SelectedSum(n, s)) == SelectedSum(n, Advance(s))
  {
    hide Advance, Xor, Selected;
    if n == 0 {
      ZeroIsFixed();
    } else {
      SumCommutes(n - 1, s);
      AfterSwaps(n - 1, s);
      AdvanceIsLinear(SelectedSum(n - 1, s), After(n - 1, s));
    }
  }

  /** Jumping and then stepping 'k' times is stepping 'k' times and then jumping. */
  lemma {:induction false} JumpCommutes(k: nat, s: State)
    ensures After(k, Jumped(s)) == Jumped(After(k, s))
  {
    hide Jumped, Advance;
    if k > 0 {
      JumpCommutes(k - 1, s);
      JumpThenStep(After(k - 1, s));
    }
  }

  lemma JumpThenStep(s: State)
    ensures Advance(Jumped(s)) == Jumped(Advance(s))
  {
    SumCommutes(128, s);
  }

  lemma {:induction false} AfterIsLinear(n: nat, s: State, t: State)
    ensures After(n, Xor(s, t)) == Xor(After(n, s), After(n, t))
  {
    hide Advance, Xor;
    if n > 0 {
      AfterIsLinear(n - 1, s, t);
      AdvanceIsLinear(After(n - 1, s), After(n - 1, t));
    }
  }

  /** The jump is linear too. */
  lemma {:induction false} SumIsLinear(n: nat, s: State, t: State)
    requires n <= 128
    ensures SelectedSum(n, Xor(s, t)) == Xor(SelectedSum(n, s), SelectedSum(n, t))
  {
    hide Selected, After, Xor64;
    if n == 0 {
      XorZero(0, 0);
    } else {
      SumIsLinear(n - 1, s, t);
      AfterIsLinear(n - 1, s, t);
      var p, q, x, y := SelectedSum(n - 1, s), SelectedSum(n - 1, t), After(n - 1, s), After(n - 1, t);
      XorRegroup(p.a, q.a, x.a, y.a);
      XorRegroup(p.b, q.b, x.b, y.b);
    }
  }

  class Generator {
    var s0: bv64
    var s1: bv64

    function Current(): State
      reads this
    {
      State(s0, s1)
    }

    constructor (seed: State)
      ensures Current() == seed
    {
      s0, s1 := seed.a, seed.b;
    }

    /** One step; the result is the sum of the old words, which wraps at 64 bits. */
    method Next() returns (result: bv64)
      modifies this
      ensures result == Add64(old(s0), old(s1))
      ensures Current() == Advance(old(Current()))
    {
      hide Xor64, Mix, Rotl, Add64;
      var x, y := s0, s1;
      result := Add64(x, y);
      y := Xor64(y, x);
      s0 := Mix(Rotl(x, 55), y);
      s1 := Rotl(y, 36);
    }

    /** The state becomes the XOR of the states that the JUMP bits select from the following run. */
    method Jump()
      modifies this
      ensures Current() == Jumped(old(Current()))
    {
      hide Selected, Bit, Advance, Xor64;
      ghost var start := Current();
      var acc := ZERO;
      for i := 0 to |JUMP|
        invariant acc == SelectedSum(64 * i, start) && Current() == After(64 * i, start)
      {
        for b := 0 to 64
          invariant acc == SelectedSum(64 * i + b, start) && Current() == After(64 * i + b, start)
        {
          SelectedAt(i, b);
          if Bit(JUMP[i], b) {
            acc := State(Xor64(acc.a, s0), Xor64(acc.b, s1));
          }
          var _ := Next();
        }
      }
      s0, s1 := acc.a, acc.b;
    }
  }
}
