/**
 The two encoders and the two decoders of the Base64 codec, each proved against the reference
 definitions.  Pointers into the source and destination are indices 'p' and 'q'.
 */
module Base64Codec {
  import opened Wrappers
  import opened Base64Spec
  import opened Words
  import opened Numbers

  // ---------- Encoder, fast form ----------

  /** Digits shifted out of a three byte word are the digits of the bytes shifted in. */
  lemma ShiftedDigits3(a: byte, b: byte, c: byte)
    ensures var t: int := (a * 256 + b) * 256 + c; var d := Digits(a, b, c);
            t / 0x40000 == d[0] && t / 0x1000 % 64 == d[1] && t / 64 % 64 == d[2] && t % 64 == d[3]
  {
    var t: int := (a * 256 + b) * 256 + c;
    Split(t, 0x40000, a / 4, a % 4 * 65536 + b * 256 + c);
    Split(t, 0x1000, a * 16 + b / 16, b % 16 * 256 + c);
    Split(a * 16 + b / 16, 64, a / 4, a % 4 * 16 + b / 16);
    Split(t, 64, a * 1024 + b * 4 + c / 64, c % 64);
    Split(a * 1024 + b * 4 + c / 64, 64, a * 16 + b / 16, b % 16 * 4 + c / 64);
  }

  lemma ShiftedDigits2(a: byte, b: byte)
    ensures var t: int := a * 256 + b; var d := Digits(a, b, 0);
            t / 1024 == d[0] && t / 16 % 64 == d[1] && t * 4 % 64 == d[2]
  {
    var t: int := a * 256 + b;
    Split(t, 1024, a / 4, a % 4 * 256 + b);
    Split(t, 16, a * 16 + b / 16, b % 16);
    Split(a * 16 + b / 16, 64, a / 4, a % 4 * 16 + b / 16);
    Split(t * 4, 64, a * 16 + b / 16, b % 16 * 4);
  }

  lemma ShiftedDigits1(a: byte)
    ensures a / 4 == Digits(a, 0, 0)[0] && a * 16 % 64 == Digits(a, 0, 0)[1]
  {
    Split(a * 16, 64, a / 4, a % 4 * 16);
  }

  /** Store four characters. */
  method Store4(dst: array<byte>, q: nat, a: byte, b: byte, c: byte, d: byte)
    requires q + 4 <= dst.Length
    modifies dst
    ensures dst[..q + 4] == old(dst[..q]) + [a, b, c, d]
  {
    dst[q] := a;
    dst[q + 1] := b;
    dst[q + 2] := c;
    dst[q + 3] := d;
  }

  method EncodeFast3(src: array<byte>, p: nat, dst: array<byte>, q: nat)
    requires src != dst && p + 3 <= src.Length && q + 4 <= dst.Length
    modifies dst
    ensures dst[..q + 4] == old(dst[..q]) + Quad(src[p], src[p + 1], src[p + 2])
  {
    ShiftedDigits3(src[p], src[p + 1], src[p + 2]);
    var t: nat := src[p];
    t := t * 256 + src[p + 1];
    t := t * 256 + src[p + 2];
    Store4(dst, q, EncTab(t / 0x40000), EncTab(t / 0x1000 % 64), EncTab(t / 64 % 64), EncTab(t % 64));
  }

  method EncodeFast2(src: array<byte>, p: nat, dst: array<byte>, q: nat)
    requires src != dst && p + 2 <= src.Length && q + 4 <= dst.Length
    modifies dst
    ensures dst[..q + 4] == old(dst[..q]) + Encode([src[p], src[p + 1]])
  {
    ShiftedDigits2(src[p], src[p + 1]);
    var t: nat := src[p];
    t := t * 256 + src[p + 1];
    Store4(dst, q, EncTab(t / 1024), EncTab(t / 16 % 64), EncTab(t * 4 % 64), EQUALS);
  }

  method EncodeFast1(src: array<byte>, p: nat, dst: array<byte>, q: nat)
    requires src != dst && p + 1 <= src.Length && q + 4 <= dst.Length
    modifies dst
    ensures dst[..q + 4] == old(dst[..q]) + Encode([src[p]])
  {
    ShiftedDigits1(src[p]);
    var t: nat := src[p];
    Store4(dst, q, EncTab(t / 4), EncTab(t * 16 % 64), EQUALS, EQUALS);
  }

  /** What is still to be encoded from index 'p' on, after the output 'done'. */
  function Remaining(s: seq<byte>, p: nat, done: seq<byte>): seq<byte>
    requires p <= |s|
  {
    done + Encode(s[p..])
  }

  /** One three byte group moves from what is to be encoded to what was emitted. */
  lemma EncodeAdvance(s: seq<byte>, p: nat, done: seq<byte>)
    requires p + 3 <= |s|
    ensures Remaining(s, p, done) == Remaining(s, p + 3, done + Quad(s[p], s[p + 1], s[p + 2]))
  {
    hide Quad;
    assert s[p..][3..] == s[p + 3..];
  }

  method EncodeGroup(src: array<byte>, p: nat, dst: array<byte>, q: nat)
    requires src != dst && p + 3 <= src.Length && q + 4 <= dst.Length
    modifies dst
    ensures Remaining(src[..], p + 3, dst[..q + 4]) == old(Remaining(src[..], p, dst[..q]))
  {
    hide Quad, Remaining;
    EncodeAdvance(src[..], p, dst[..q]);
    EncodeFast3(src, p, dst, q);
  }

  lemma GroupCount(n: nat) returns (total: nat)
    ensures EncodedLength(n) == 4 * total && n <= 3 * total <= n + 2
  {
    total := (n + 2) / 3;
  }

  /** Unrolled by four: 12 byte input chunks, 16 character output chunks. */
  method EncodeUnrolled(src: array<byte>, dst: array<byte>, ghost want: seq<byte>)
    returns (p: nat, q: nat, ghost groups: nat)
    requires src != dst && dst.Length == EncodedLength(src.Length) && src.Length >= 16
    requires Remaining(src[..], 0, dst[..0]) == want
    modifies dst
    ensures p <= src.Length < p + 12 && p == 3 * groups && q == 4 * groups
    ensures Remaining(src[..], p, dst[..q]) == want
  {
    hide Remaining;
    p, q := 0, 0;
    var pEndFast := src.Length / 12 * 12;
    ghost var chunks := 0;
    while true
      invariant p == 12 * chunks && q == 16 * chunks && p < pEndFast
      invariant Remaining(src[..], p, dst[..q]) == want
      decreases pEndFast - p
    {
      EncodeGroup(src, p, dst, q);
      EncodeGroup(src, p + 3, dst, q + 4);
      EncodeGroup(src, p + 6, dst, q + 8);
      EncodeGroup(src, p + 9, dst, q + 12);
      p := p + 12;
      q := q + 16;
      chunks := chunks + 1;
      if p == pEndFast { break; }
    }
    groups := 4 * chunks;
  }

  /** The last 0, 1 or 2 bytes. */
  method EncodeTail(src: array<byte>, p: nat, dst: array<byte>, q: nat)
    requires src != dst && p <= src.Length < p + 3 && dst.Length == q + EncodedLength(src.Length - p)
    modifies dst
    ensures dst[..] == old(Remaining(src[..], p, dst[..q]))
  {
    hide Quad;
    var n := src.Length - p;
    if n == 1 {
      assert src[..][p..] == [src[p]];
      EncodeFast1(src, p, dst, q);
    } else if n == 2 {
      assert src[..][p..] == [src[p], src[p + 1]];
      EncodeFast2(src, p, dst, q);
    }
  }

  /** All full groups: the unrolled loop for long inputs, then one group at a time. */
  method EncodeGroups(src: array<byte>, dst: array<byte>, ghost want: seq<byte>) returns (p: nat, q: nat)
    requires src != dst && dst.Length == EncodedLength(src.Length) && Remaining(src[..], 0, dst[..0]) == want
    modifies dst
    ensures p <= src.Length < p + 3 && dst.Length == q + EncodedLength(src.Length - p) && Remaining(src[..], p, dst[..q]) == want
  {
    hide *;
    p, q := 0, 0;
    var n: int := src.Length;
    ghost var total := GroupCount(src.Length);
    ghost var groups := 0;
    if n >= 16 {
      p, q, groups := EncodeUnrolled(src, dst, want);
      n := src.Length - p;
    }
    while n >= 3
      invariant p == 3 * groups && q == 4 * groups && n == src.Length - p >= 0
      invariant Remaining(src[..], p, dst[..q]) == want
    {
      EncodeGroup(src, p, dst, q);
      p := p + 3;
      q := q + 4;
      n := n - 3;
      groups := groups + 1;
    }
    TailLength(src.Length, groups);
  }

  lemma TailLength(n: nat, groups: nat)
    requires 3 * groups <= n
    ensures EncodedLength(n) == 4 * groups + EncodedLength(n - 3 * groups)
  {
  }

  method EncodeHelperFast(src: array<byte>, dst: array<byte>)
    requires src != dst && dst.Length == EncodedLength(src.Length)
    modifies dst
    ensures dst[..] == Encode(src[..])
  {
    ghost var want := Encode(src[..]);
    assert Remaining(src[..], 0, dst[..0]) == want by { assert src[..][0..] == src[..]; }
    hide *;
    var p, q := EncodeGroups(src, dst, want);
    EncodeTail(src, p, dst, q);
  }

  // ---------- Encoder, compact form ----------

  /** Three source bytes, bytes past the end read as zero. */
  function Group3(s: seq<byte>): (r: seq<byte>)
    ensures |r| == 3
  {
    [if |s| > 0 then s[0] else 0, if |s| > 1 then s[1] else 0, if |s| > 2 then s[2] else 0]
  }

  /** The output as it stands before padding characters replace those that stand for no byte. */
  function EncodeUnfixed(s: seq<byte>): (r: seq<byte>)
    ensures |r| == EncodedLength(|s|)
    decreases |s|
  {
    if s == [] then []
    else
      var g := Group3(s);
      Quad(g[0], g[1], g[2]) + EncodeUnfixed(if |s| <= 3 then [] else s[3..])
  }

  lemma {:induction false} PaddingFixesOutput(s: seq<byte>, npad: nat)
    requires npad < 3 && (|s| + npad) % 3 == 0
    ensures |EncodeUnfixed(s)| >= npad
    ensures Encode(s) == EncodeUnfixed(s)[..|EncodeUnfixed(s)| - npad] + Pads(npad)
  {
    hide Quad;
    if |s| > 3 {
      PaddingFixesOutput(s[3..], npad);
    } else {
      assert |s| == 3 ==> s[3..] == [];
      assert EncodeUnfixed([]) == [] && Encode([]) == [];
      assert Pads(0) == [] && Pads(1) == [EQUALS] && Pads(2) == [EQUALS, EQUALS];
    }
  }

  /** Comparisons in place of the encode table. */
  method EncodeChar(x: digit) returns (y: byte)
    ensures y == EncTab(x)
  {
    if x <= 51 {
      if x <= 25 { y := x + 0x41; } else { y := x - 26 + 0x61; }
    } else {
      if x <= 61 { y := x - 52 + 0x30; } else if x == 62 { y := 0x2b; } else { y := 0x2f; }
    }
  }

  /** The word after shifting in the first 'i' of three bytes. */
  function Word(g: seq<byte>, i: nat): (w: nat)
    requires |g| == 3 && i <= 3
  {
    if i == 0 then 0 else Word(g, i - 1) * 256 + g[i - 1]
  }

  /** The next three bytes as one word, where a byte past the end counts as 0, and how many were missing. */
  method ReadGroup(src: array<byte>, start: nat, ghost s: seq<byte>) returns (t: nat, p: nat, npad: nat)
    requires start < src.Length && s == src[..]
    ensures t == Word(Group3(s[start..]), 3)
    ensures var x: int, y: int := if start + 1 < |s| then s[start + 1] else 0, if start + 2 < |s| then s[start + 2] else 0;
            t == s[start] * 0x1_0000 + x * 0x100 + y
    ensures p + npad == start + 3 && p == if start + 3 <= src.Length then start + 3 else src.Length
  {
    ghost var g := Group3(s[start..]);
    t, p, npad := 0, start, 0;
    for i := 0 to 3
      invariant p + npad == start + i && p == if start + i <= src.Length then start + i else src.Length
      invariant t == Word(g, i)
    {
      t := t * 256;
      if p < src.Length {
        t := t + src[p];
        p := p + 1;
      } else {
        npad := npad + 1;
      }
    }
    assert Word(g, 3) == Word(g, 2) * 256 + g[2] && Word(g, 2) == Word(g, 1) * 256 + g[1];
  }

  /** The 32-bit word after 'i' emitted digits: each shift by 6 bits drops the bits above. */
  function Emitted(word: nat, i: nat): nat
  {
    if i == 0 then word else Emitted(word, i - 1) * 64 % 0x1_0000_0000
  }

  /** The low part of a word is what is left after its high bits were shifted out. */
  lemma ShiftOut(high: nat, low: nat)
    requires low < 0x4000_0000
    ensures (high * 0x4000_0000 + low) % 0x1_0000_0000 == high % 4 * 0x4000_0000 + low
  {
    Split(high * 0x4000_0000 + low, 0x1_0000_0000, high / 4, high % 4 * 0x4000_0000 + low);
  }

  lemma MiddleDigit(high: nat, x: digit, low: nat)
    requires low < 0x40000
    ensures (high * 0x1000000 + x * 0x40000 + low) / 0x40000 % 64 == x
  {
    Split(high * 0x1000000 + x * 0x40000 + low, 0x40000, high * 64 + x, low);
    Split(high * 64 + x, 64, high, x);
  }

  lemma EmittedValues(x: digit, y: digit, z: digit, v: digit)
    ensures var w: nat := x * 0x40000 + y * 0x1000 + z * 64 + v;
            && Emitted(w, 0) == w && Emitted(w, 1) == w * 64
            && Emitted(w, 2) == x % 4 * 0x4000_0000 + y * 0x100_0000 + z * 0x40000 + v * 0x1000
            && Emitted(w, 3) == y % 4 * 0x4000_0000 + z * 0x100_0000 + v * 0x40000
  {
    ShiftOut(x, y * 0x100_0000 + z * 0x40000 + v * 0x1000);
    ShiftOut(x % 4 * 64 + y, z * 0x100_0000 + v * 0x40000);
    var w: nat := x * 0x40000 + y * 0x1000 + z * 64 + v;
    assert Emitted(w, 1) == w * 64;
    assert Emitted(w, 2) == x % 4 * 0x4000_0000 + y * 0x100_0000 + z * 0x40000 + v * 0x1000;
    assert Emitted(w, 3) == Emitted(w, 2) * 64 % 0x1_0000_0000;
  }

  /** Bits 18 to 23 hold one digit after the other, although high bits are lost by the shifts. */
  lemma EmittedDigits(x: digit, y: digit, z: digit, v: digit)
    ensures var w: nat := x * 0x40000 + y * 0x1000 + z * 64 + v;
            && Emitted(w, 0) / 0x40000 % 64 == x && Emitted(w, 1) / 0x40000 % 64 == y
            && Emitted(w, 2) / 0x40000 % 64 == z && Emitted(w, 3) / 0x40000 % 64 == v
  {
    hide Emitted;
    EmittedValues(x, y, z, v);
    MiddleDigit(0, x, y * 0x1000 + z * 64 + v);
    MiddleDigit(x, y, z * 0x1000 + v * 64);
    MiddleDigit(x % 4 * 64 + y, z, v * 0x1000);
    MiddleDigit(y % 4 * 64 + z, v, 0);
  }

  lemma TopDigit(g: seq<byte>, i: nat)
    requires |g| == 3 && i < 4
    ensures Emitted(Word(g, 3), i) / 0x40000 % 64 == Digits(g[0], g[1], g[2])[i]
  {
    var a: nat, b: nat, d := g[0], g[1], Digits(g[0], g[1], g[2]);
    assert Word(g, 2) == a * 256 + b by { assert Word(g, 1) == a; }
    assert Word(g, 3) == a * 65536 + b * 256 + g[2];
    EmittedDigits(d[0], d[1], d[2], d[3]);
  }

  /** Emit the 4 characters of a word from its top digits. */
  method EmitGroup(dst: array<byte>, q: nat, word: nat, ghost g: seq<byte>)
    requires q + 4 <= dst.Length && |g| == 3 && word == Word(g, 3)
    modifies dst
    ensures dst[..q + 4] == old(dst[..q]) + Quad(g[0], g[1], g[2])
  {
    hide EncTab, Word, Digits;
    var t := word;
    for i := 0 to 4
      invariant t == Emitted(word, i)
      invariant dst[..q + i] == old(dst[..q]) + Quad(g[0], g[1], g[2])[..i]
    {
      TopDigit(g, i);
      var y := EncodeChar(t / 0x40000 % 64);
      dst[q + i] := y;
      t := t * 64 % 0x1_0000_0000;
    }
  }

  lemma UnfixedStep(s: seq<byte>, p: nat, next: nat)
    requires p < |s| && next == if p + 3 <= |s| then p + 3 else |s|
    ensures var g := Group3(s[p..]); EncodeUnfixed(s[p..]) == Quad(g[0], g[1], g[2]) + EncodeUnfixed(s[next..])
  {
    hide Quad;
    assert s[next..] == if |s[p..]| <= 3 then [] else s[p..][3..];
  }

  /** Overwrite the last 'count' characters with padding. */
  method FixPadding(dst: array<byte>, count: nat)
    requires count <= dst.Length
    modifies dst
    ensures dst[..] == old(dst[..dst.Length - count]) + Pads(count)
  {
    var q, npad := dst.Length, count;
    while npad > 0
      invariant 0 <= npad <= count
      invariant dst[..q - npad] == old(dst[..q - count]) + Pads(count - npad)
    {
      dst[q - npad] := EQUALS;
      npad := npad - 1;
    }
  }

  /** What the groups from index 'p' on add to the output 'done'. */
  function Unfinished(s: seq<byte>, p: nat, done: seq<byte>): seq<byte>
    requires p <= |s|
  {
    done + EncodeUnfixed(s[p..])
  }

  method EncodeOneGroup(src: array<byte>, start: nat, dst: array<byte>, q: nat) returns (p: nat, npad: nat)
    requires src != dst && start < src.Length && q + 4 <= dst.Length
    modifies dst
    ensures p + npad == start + 3 && p == if start + 3 <= src.Length then start + 3 else src.Length
    ensures Unfinished(src[..], p, dst[..q + 4]) == old(Unfinished(src[..], start, dst[..q]))
  {
    hide EncodeUnfixed, Group3, Quad, Word;
    ghost var s := src[..];
    var t;
    t, p, npad := ReadGroup(src, start, s);
    EmitGroup(dst, q, t, Group3(s[start..]));
    UnfixedStep(s, start, p);
  }

  /** All groups, the last one possibly read past the end of the input. */
  method EncodeAllGroups(src: array<byte>, dst: array<byte>, ghost want: seq<byte>) returns (npad: nat)
    requires src != dst && dst.Length == EncodedLength(src.Length) && Unfinished(src[..], 0, dst[..0]) == want
    modifies dst
    ensures npad < 3 && (src.Length + npad) % 3 == 0 && Unfinished(src[..], src.Length, dst[..dst.Length]) == want
  {
    hide *;
    var p, q := 0, 0;
    npad := 0;
    ghost var groups := 0;
    ghost var total := GroupCount(src.Length);
    while p < src.Length
      invariant q == 4 * groups && p + npad == 3 * groups && groups <= total
      invariant 0 <= p <= src.Length && 0 <= npad < 3 && (npad > 0 ==> p == src.Length)
      invariant Unfinished(src[..], p, dst[..q]) == want
    {
      p, npad := EncodeOneGroup(src, p, dst, q);
      q := q + 4;
      groups := groups + 1;
    }
  }

  lemma NothingUnfixed()
    ensures EncodeUnfixed([]) == []
  {
  }

  lemma UnfinishedEnds(s: seq<byte>, d: seq<byte>)
    ensures Unfinished(s, 0, []) == EncodeUnfixed(s) && Unfinished(s, |s|, d) == d
  {
    hide EncodeUnfixed;
    assert s[0..] == s && s[|s|..] == [];
    NothingUnfixed();
    assert [] + EncodeUnfixed(s) == EncodeUnfixed(s) && d + [] == d;
  }

  method EncodeHelperCompact(src: array<byte>, dst: array<byte>)
    requires src != dst && dst.Length == EncodedLength(src.Length)
    modifies dst
    ensures dst[..] == Encode(src[..])
  {
    hide *;
    ghost var want := EncodeUnfixed(src[..]);
    UnfinishedEnds(src[..], []);
    assert dst[..0] == [];
    var npad := EncodeAllGroups(src, dst, want);
    UnfinishedEnds(src[..], dst[..]);
    assert dst[..dst.Length] == dst[..];
    PaddingFixesOutput(src[..], npad);
    // Each missing byte leaves one character that stands for nothing.
    FixPadding(dst, npad);
  }
}
